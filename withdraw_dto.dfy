/** `CreateWithdrawDto` (restaraunt-backend/src/withdraw/dto/create-withdraw.dto.ts). */
module WithdrawDto {
  import opened Js
  import opened Validation

  /** The values of the WithdrawType enum. */
  const WITHDRAW_TYPES: set<string> := {"INCOME", "OUTCOME"}

  /** Each property with the verdict of its decorators, in declaration order. */
  function Checks(body: Body): seq<(string, bool)> {
    var orderId := Field(body, "orderId");
    var description := Field(body, "description");
    [ ("type", IsEnum(Field(body, "type"), WITHDRAW_TYPES)),
      ("amount", Min(Field(body, "amount"), 0)),
      ("restaurantId", IsUuid(Field(body, "restaurantId"))),
      ("orderId", Absent(orderId) || IsUuid(orderId)),
      ("description", Absent(description) || IsString(description)) ]
  }

  function Violations(body: Body): seq<string> {
    Failing(Checks(body))
  }

  /**
   * A body is accepted exactly when type is INCOME or OUTCOME, amount is a number of at
   * least 0, restaurantId is a UUID, orderId is absent, null or a UUID, and description is
   * absent, null or a string.
   */
  lemma Accepted(body: Body)
    ensures Violations(body) == [] <==>
      && Field(body, "type") in {Str("INCOME"), Str("OUTCOME")}
      && Field(body, "amount").Num? && Field(body, "amount").n >= 0
      && IsUuid(Field(body, "restaurantId"))
      && (Field(body, "orderId") in {Undefined, Null} || IsUuid(Field(body, "orderId")))
      && (Field(body, "description") in {Undefined, Null} || Field(body, "description").Str?)
  {
    var c := Checks(body);
    assert (forall i :: 0 <= i < |c| ==> c[i].1) <==> c[0].1 && c[1].1 && c[2].1 && c[3].1 && c[4].1;
  }

  /** The optional properties may be left out, while a missing amount or restaurantId is refused. */
  lemma OptionalAndRequired(body: Body)
    requires "orderId" !in body && "description" !in body
    ensures "orderId" !in Violations(body) && "description" !in Violations(body)
    ensures "amount" !in body ==> "amount" in Violations(body)
    ensures "restaurantId" !in body ==> "restaurantId" in Violations(body)
  {
    var c := Checks(body);
    assert c[1].0 == "amount" && c[2].0 == "restaurantId";
  }
}
