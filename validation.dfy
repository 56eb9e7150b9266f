/** `validate_json_data` of server_improved.py: the shape check that the
    register and send-command handlers run before they look at any state. */
module Validation {
  import opened Values

  /** Why a request body was refused; `Message` gives the text sent back. */
  datatype Reason = NoData | MissingField(field: string) | EmptyField(field: string)

  datatype Validation = Valid | Invalid(reason: Reason)

  function Message(reason: Reason): (r: string)
    // the refused field's name is spelled out in the message
    ensures reason.MissingField? ==> |r| == 24 + |reason.field| && r[24..] == reason.field
    ensures reason.EmptyField? ==> |r| == 24 + |reason.field| && r[7..7 + |reason.field|] == reason.field
  {
    match reason
    case NoData => "No JSON data provided"
    case MissingField(f) => "Missing required field: " + f
    case EmptyField(f) => "Field '" + f + "' cannot be empty"
  }

  /** A client can tell from the message text alone which check failed and
      on which field: different reasons never share a message. */
  lemma MessageIdentifiesReason(a: Reason, b: Reason)
    ensures Message(a) == Message(b) ==> a == b
  {
    var ma, mb := Message(a), Message(b);
    if ma == mb {
      // the first letter tells the three kinds apart
      assert ma[0] == (if a.NoData? then 'N' else if a.MissingField? then 'M' else 'F');
      assert mb[0] == (if b.NoData? then 'N' else if b.MissingField? then 'M' else 'F');
      if a.EmptyField? {
        // the field ends where the fixed suffix "' cannot be empty" begins
        assert a.field == ma[7..|ma| - 17] == mb[7..|mb| - 17] == b.field;
      }
    }
  }

  /** A required field that is there and not empty. */
  predicate Present(m: map<string, Json>, f: string) {
    f in m && !IsEmptyValue(m[f])
  }

  /** Field `fields[i]` is the first one in list order that fails. */
  predicate FirstFailureAt(m: map<string, Json>, fields: seq<string>, i: int) {
    && 0 <= i < |fields|
    && !Present(m, fields[i])
    && forall j :: 0 <= j < i ==> Present(m, fields[j])
  }

  /** The reason reported for a field that fails: missing before empty. */
  function ReasonFor(m: map<string, Json>, f: string): Reason {
    if f !in m then MissingField(f) else EmptyField(f)
  }

  /** The `for field in required_fields` loop with its two early returns. */
  function CheckFields(m: map<string, Json>, fields: seq<string>): (r: Validation)
    ensures r.Valid? <==> forall i :: 0 <= i < |fields| ==> Present(m, fields[i])
    ensures r != Invalid(NoData)
    ensures forall i :: FirstFailureAt(m, fields, i) ==> r == Invalid(ReasonFor(m, fields[i]))
    decreases |fields|
  {
    if fields == [] then Valid
    else if fields[0] !in m then Invalid(MissingField(fields[0]))
    else if IsEmptyValue(m[fields[0]]) then Invalid(EmptyField(fields[0]))
    else
      var rest := CheckFields(m, fields[1..]);
      assert forall i :: FirstFailureAt(m, fields, i) ==> i > 0 && FirstFailureAt(m, fields[1..], i - 1);
      rest
  }

  /** `validate_json_data(data, required_fields)`; `None` stands for a
      request without a JSON body. An empty object is refused like a missing
      body, since `not {}` holds in Python. */
  function ValidateJsonData(data: Option<map<string, Json>>, required: seq<string>): (r: Validation)
    ensures r == Invalid(NoData) <==> data.None? || data.value == map[]
    ensures r.Valid? <==>
      data.Some? && data.value != map[] && forall i :: 0 <= i < |required| ==> Present(data.value, required[i])
    ensures r.Valid? ==> data.Some? && forall f :: f in required ==> Present(data.value, f)
    ensures data.Some? && data.value != map[] ==>
      forall i :: FirstFailureAt(data.value, required, i) ==> r == Invalid(ReasonFor(data.value, required[i]))
  {
    if data.None? || data.value == map[] then Invalid(NoData)
    else CheckFields(data.value, required)
  }

  /** A body carrying every required field, none of them empty, passes. */
  lemma Accepted(m: map<string, Json>, required: seq<string>)
    requires required != [] && forall i :: 0 <= i < |required| ==> Present(m, required[i])
    ensures ValidateJsonData(Some(m), required) == Valid
  {
    assert required[0] in m;
  }
}
