/** What a partial update does with one map entry before it reaches a field:
    Jackson's conversion of the JSON value to the field's type, the lower-casing
    of an e-mail, and the message of a failed bean validation. */
module FieldUpdates {

  import opened Wrappers
  import opened Text
  import opened Roles
  import opened JsonValues
  import opened ExceptionHandling

  /** The exception a failed `convertValue` raises. */
  const ConversionFailed: Exception := Other("IllegalArgumentException")

  /** `convertValue(v, String.class)`: null stays null, a string is itself, an
      object cannot become a string. */
  function ToText(v: Value): (r: Result<Nullable, Exception>)
    ensures r.Failure? <==> v.Obj?
    ensures v.Str? ==> r == Success(Some(v.s))
  {
    match v
    case Null => Success(None)
    case Str(s) => Success(Some(s))
    case Obj(_) => Failure(ConversionFailed)
  }

  /** `convertValue(v, Roles.class)`, restricted to the exact constant names: within
      this model a role is read only from its name. */
  function ToRole(v: Value): (r: Result<Option<Role>, Exception>)
    ensures r.Success? && r.value.Some? ==> v == Str(RoleName(r.value.value))
    ensures v.Null? ==> r == Success(None)
  {
    match v
    case Null => Success(None)
    case Str(s) =>
      if s == "USER" then Success(Some(USER))
      else if s == "ONG" then Success(Some(ONG))
      else if s == "ADMIN" then Success(Some(ADMIN))
      else Failure(ConversionFailed)
    case Obj(_) => Failure(ConversionFailed)
  }

  function RoleName(r: Role): string {
    match r
    case USER => "USER"
    case ONG => "ONG"
    case ADMIN => "ADMIN"
  }

  /** Every role converts back from its name. */
  lemma RoleNameRoundTrip(r: Role)
    ensures ToRole(Str(RoleName(r))) == Success(Some(r))
  {
  }

  /** The value of the "email" key is lower-cased when it is a string; every other
      entry is passed on unchanged. */
  function Lowered(key: string, v: Value): (r: Value)
    ensures key == "email" && v.Str? ==> r == Str(ToLower(v.s))
    ensures key != "email" || !v.Str? ==> r == v
  {
    if key == "email" && v.Str? then Str(ToLower(v.s)) else v
  }

  /** The messages of the violations, appended without a separator. */
  function Concat(messages: seq<string>): string {
    if |messages| == 0 then "" else Concat(messages[..|messages| - 1]) + messages[|messages| - 1]
  }

  /** The ConstraintViolationException a partial update throws when bean validation
      reports violations. */
  function ViolationError(violations: seq<string>): Exception {
    Other("Erro de validação: " + Concat(violations))
  }

  /** `updates.forEach` over an entity: the entries of the map applied one at a time
      in its iteration order by `patch`; the first entry that fails stops the
      update with its error. */
  function ApplyAll<R>(patch: (R, string, Value) -> Result<R, Exception>, r: R,
                       updates: map<string, Value>, order: seq<string>): Result<R, Exception>
    requires forall i :: 0 <= i < |order| ==> order[i] in updates
  {
    if |order| == 0 then Success(r)
    else
      var n := |order| - 1;
      match ApplyAll(patch, r, updates, order[..n])
      case Success(r1) => patch(r1, order[n], updates[order[n]])
      case Failure(e) => Failure(e)
  }

  /** Once an entry fails, the whole update fails with that entry's error. */
  lemma {:induction false} ApplyFailureSticks<R>(patch: (R, string, Value) -> Result<R, Exception>, r: R,
                                                 updates: map<string, Value>, order: seq<string>, k: nat)
    requires forall i :: 0 <= i < |order| ==> order[i] in updates
    requires k <= |order| && ApplyAll(patch, r, updates, order[..k]).Failure?
    ensures ApplyAll(patch, r, updates, order) == ApplyAll(patch, r, updates, order[..k])
    decreases |order| - k
  {
    if k < |order| {
      assert order[..k + 1][..k] == order[..k];
      ApplyFailureSticks(patch, r, updates, order, k + 1);
    } else {
      assert order[..k] == order;
    }
  }

  /** The iteration order of a map: every key exactly once. */
  predicate IsOrderOf(order: seq<string>, updates: map<string, Value>) {
    && (forall k :: k in updates ==> k in order)
    && (forall i :: 0 <= i < |order| ==> order[i] in updates)
    && (forall i, j :: 0 <= i < j < |order| ==> order[i] != order[j])
  }
}
