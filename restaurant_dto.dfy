/** `CreateRestarauntDto` (restaraunt-backend/src/restaraunt/dto/create-restaraunt.dto.ts). */
module RestaurantDto {
  import opened Js
  import opened Validation
  import Patterns

  /**
   * Each property with the verdict of its decorators, in declaration order.
   * `restaurantTypes` holds the values of the RestaurantType enum, which is generated from
   * the database schema.
   */
  function Checks(body: Body, restaurantTypes: set<string>): seq<(string, bool)> {
    var tip := Field(body, "tip");
    var phone := Field(body, "phone");
    [ ("name", IsString(Field(body, "name"))),
      ("regionId", IsString(Field(body, "regionId"))),
      ("tip", IsNumber(tip) && Min(tip, 0) && Max(tip, 100)),
      ("type", IsEnum(Field(body, "type"), restaurantTypes)),
      ("address", IsString(Field(body, "address"))),
      ("phone", IsString(phone) && MatchesPattern(phone, Patterns.PHONE)),
      ("isActive", IsBoolean(Field(body, "isActive"))) ]
  }

  /** The property names that fail their checks. */
  function Violations(body: Body, restaurantTypes: set<string>): seq<string> {
    Failing(Checks(body, restaurantTypes))
  }

  /**
   * A body is accepted exactly when name, regionId and address are strings, tip is a
   * number from 0 to 100 inclusive, type is a RestaurantType, phone is "+998" and nine
   * digits, and isActive is a boolean.
   */
  lemma Accepted(body: Body, restaurantTypes: set<string>)
    ensures Violations(body, restaurantTypes) == [] <==>
      && Field(body, "name").Str? && Field(body, "regionId").Str? && Field(body, "address").Str?
      && Field(body, "tip").Num? && 0 <= Field(body, "tip").n <= 100
      && Field(body, "type").Str? && Field(body, "type").s in restaurantTypes
      && Field(body, "phone").Str? && |Field(body, "phone").s| == 13 && Field(body, "phone").s[..4] == "+998"
      && (forall i :: 4 <= i < 13 ==> '0' <= Field(body, "phone").s[i] <= '9')
      && Field(body, "isActive").Bool?
  {
    var c := Checks(body, restaurantTypes);
    if Field(body, "phone").Str? {
      Patterns.PhoneShape(Field(body, "phone").s);
    }
    assert (forall i :: 0 <= i < |c| ==> c[i].1) <==> c[0].1 && c[1].1 && c[2].1 && c[3].1 && c[4].1 && c[5].1 && c[6].1;
  }

  /** The tip rule alone: 0 and 100 pass, -1 and 101 fail, and so does the text "50". */
  lemma TipBounds(body: Body, restaurantTypes: set<string>)
    ensures "tip" !in Violations(body["tip" := Num(0)], restaurantTypes)
    ensures "tip" !in Violations(body["tip" := Num(100)], restaurantTypes)
    ensures "tip" in Violations(body["tip" := Num(101)], restaurantTypes)
    ensures "tip" in Violations(body["tip" := Num(-1)], restaurantTypes)
    ensures "tip" in Violations(body["tip" := Str("50")], restaurantTypes)
  {
    assert Checks(body["tip" := Num(101)], restaurantTypes)[2] == ("tip", false);
    assert Checks(body["tip" := Num(-1)], restaurantTypes)[2] == ("tip", false);
    assert Checks(body["tip" := Str("50")], restaurantTypes)[2] == ("tip", false);
  }
}
