/** Request-body gates of server/util.go: the Content-Type and empty-body
    checks `shouldBindBody` makes before it reads the body, and the
    reflection-driven loop of `bindFormToStruct` with the kind dispatch of
    `setFieldValue`.

    A destination struct is a sequence of field descriptors (name, `form`
    tag, kind, settable) together with an array holding the fields' current
    values, which binding updates in place. The `strconv` parsers and
    `mime.ParseMediaType` are oracles passed in by the caller. */
module Binding {
  import opened Http

  /** `reflect.Kind` of a struct field, as far as `setFieldValue` tells them apart. */
  datatype Kind =
    | StringKind
    | IntKind | Int8Kind | Int16Kind | Int32Kind | Int64Kind
    | BoolKind
    | Float32Kind | Float64Kind
    | OtherKind(name: string)

  predicate IsIntKind(k: Kind)
  {
    k.IntKind? || k.Int8Kind? || k.Int16Kind? || k.Int32Kind? || k.Int64Kind?
  }

  /** Number of distinct values of a signed integer kind (`int` is 64 bits wide). */
  function Modulus(k: Kind): int
    requires IsIntKind(k)
  {
    match k
    case Int8Kind => 0x100
    case Int16Kind => 0x1_0000
    case Int32Kind => 0x1_0000_0000
    case _ => 0x1_0000_0000_0000_0000
  }

  /** `x` fits the signed integer kind `k`. */
  predicate FitsKind(x: int, k: Kind)
    requires IsIntKind(k)
  {
    -Modulus(k) / 2 <= x < Modulus(k) / 2
  }

  /** The two's-complement truncation `reflect.Value.SetInt` applies when it
      stores `x` into a field of kind `k`. */
  function Truncate(x: int, k: Kind): int
    requires IsIntKind(k)
  {
    var r := x % Modulus(k);
    if r >= Modulus(k) / 2 then r - Modulus(k) else r
  }

  /** The value held by a struct field (a float is kept as its IEEE-754 bits). */
  datatype FieldValue = StrVal(s: string) | IntVal(i: int) | BoolVal(b: bool) | FloatVal(bits: bv64) | OtherVal

  /** The field value fits the field's kind. */
  predicate HoldsKind(v: FieldValue, k: Kind)
  {
    match k
    case StringKind => v.StrVal?
    case BoolKind => v.BoolVal?
    case Float32Kind => v.FloatVal?
    case Float64Kind => v.FloatVal?
    case OtherKind(_) => true
    case _ => v.IntVal? && FitsKind(v.i, k)
  }

  /** `strconv.ParseInt(s, 10, 64)`, `strconv.ParseBool`, `strconv.ParseFloat(s, 64)`. */
  datatype Parsers = Parsers(
    ParseInt: string -> Option<int>,
    ParseBool: string -> Option<bool>,
    ParseFloat: string -> Option<bv64>)

  /** A struct field as reflection sees it. */
  datatype FieldDesc = FieldDesc(Name: string, Tag: string, Kind: Kind, Settable: bool)

  /** `url.Values`: every key maps to the values given for it. */
  type Form = map<string, seq<string>>

  datatype FieldError =
    | Unparsable(kind: Kind, input: string)
    | OutOfRange(kind: Kind, value: int)
    | Unsupported(kind: Kind)

  datatype BindError =
    | InvalidContentType(cause: string)
    | UnexpectedContentType(expected: string, got: string)
    | EmptyBody
    | NotStructPointer
    | FieldFailed(field: string, fieldError: FieldError)

  // ---------------------------------------------------------------------
  // shouldBindBody: the checks made before the body is read
  // ---------------------------------------------------------------------

  /** The media types accepted where `expected` is asked for: itself, and
      "text/xml" in place of "application/xml". */
  predicate AcceptsMediaType(expected: string, media: string)
  {
    media == expected || (expected == "application/xml" && media == "text/xml")
  }

  /** The Content-Type gate. `header` is the request's Content-Type header
      and `parsed` what `mime.ParseMediaType` makes of it (the media type or
      the parse error's text). */
  function CheckContentType(expectedType: string, header: string, parsed: Result<string, string>): (r: Result<(), BindError>)
    ensures expectedType == "" || header == "" ==> r == Ok(())
    ensures expectedType != "" && header != "" && parsed.Err? ==> r == Err(InvalidContentType(parsed.error))
    ensures expectedType != "" && header != "" && parsed.Ok? ==>
      (r.Ok? <==> AcceptsMediaType(expectedType, parsed.value)) &&
      (r.Err? ==> r.error == UnexpectedContentType(expectedType, parsed.value))
  {
    if expectedType != "" && header != "" then
      match parsed
      case Err(e) => Err(InvalidContentType(e))
      case Ok(mediaType) =>
        if mediaType != expectedType && (expectedType != "application/xml" || mediaType != "text/xml") then
          Err(UnexpectedContentType(expectedType, mediaType))
        else
          Ok(())
    else
      Ok(())
  }

  /** Everything `shouldBindBody` decides before it reads the body: the
      Content-Type gate first, then the nil-body check. Ok means the body is
      read and handed to the unmarshaller. */
  function ShouldBindBodyPrecheck(req: HttpRequest, expectedType: string, parsed: Result<string, string>): (r: Result<(), BindError>)
    ensures CheckContentType(expectedType, HeaderGet(req.Header, "Content-Type"), parsed).Err? ==>
      r == CheckContentType(expectedType, HeaderGet(req.Header, "Content-Type"), parsed)
    ensures r == Err(EmptyBody) <==>
      CheckContentType(expectedType, HeaderGet(req.Header, "Content-Type"), parsed).Ok? && !req.HasBody
    ensures r.Ok? <==>
      CheckContentType(expectedType, HeaderGet(req.Header, "Content-Type"), parsed).Ok? && req.HasBody
  {
    var gate := CheckContentType(expectedType, HeaderGet(req.Header, "Content-Type"), parsed);
    if gate.Err? then gate
    else if !req.HasBody then Err(EmptyBody)
    else Ok(())
  }

  /** Only one alias is accepted, and only in one direction. */
  lemma AcceptsOnlyXmlAlias(expected: string, media: string)
    ensures AcceptsMediaType(expected, media) && media != expected ==>
      expected == "application/xml" && media == "text/xml"
    ensures AcceptsMediaType("application/xml", "text/xml")
    ensures !AcceptsMediaType("text/xml", "application/xml")
  {
  }

  /** When the gate is off (no expected type or no header) the parser's
      verdict is never consulted. */
  lemma GateIgnoresParserWhenOff(expectedType: string, header: string, p1: Result<string, string>, p2: Result<string, string>)
    requires expectedType == "" || header == ""
    ensures CheckContentType(expectedType, header, p1) == CheckContentType(expectedType, header, p2) == Ok(())
  {
  }

  // ---------------------------------------------------------------------
  // setFieldValue
  // ---------------------------------------------------------------------

  /** `setFieldValue` as written: integer kinds are parsed at 64 bits and then
      stored with `SetInt`, which truncates to the field's width. */
  function SetFieldValueAsWritten(kind: Kind, value: string, parsers: Parsers): (r: Result<FieldValue, FieldError>)
    ensures r.Ok? ==> HoldsKind(r.value, kind)
    ensures kind.OtherKind? <==> r == Err(Unsupported(kind))
    ensures kind == StringKind ==> r == Ok(StrVal(value))
    ensures IsIntKind(kind) ==>
      (r.Ok? <==> parsers.ParseInt(value).Some?) &&
      (r.Ok? ==> r.value == IntVal(Truncate(parsers.ParseInt(value).value, kind)))
    ensures kind == BoolKind ==>
      (r.Ok? <==> parsers.ParseBool(value).Some?) &&
      (r.Ok? ==> r.value == BoolVal(parsers.ParseBool(value).value))
    ensures kind == Float32Kind || kind == Float64Kind ==>
      (r.Ok? <==> parsers.ParseFloat(value).Some?) &&
      (r.Ok? ==> r.value == FloatVal(parsers.ParseFloat(value).value))
  {
    match kind
    case StringKind => Ok(StrVal(value))
    case BoolKind =>
      (match parsers.ParseBool(value)
       case None => Err(Unparsable(kind, value))
       case Some(b) => Ok(BoolVal(b)))
    case Float32Kind => SetFloat(kind, value, parsers)
    case Float64Kind => SetFloat(kind, value, parsers)
    case OtherKind(_) => Err(Unsupported(kind))
    case _ =>
      match parsers.ParseInt(value)
      case None => Err(Unparsable(kind, value))
      case Some(x) => Ok(IntVal(Truncate(x, kind)))
  }

  function SetFloat(kind: Kind, value: string, parsers: Parsers): Result<FieldValue, FieldError>
  {
    match parsers.ParseFloat(value)
    case None => Err(Unparsable(kind, value))
    case Some(f) => Ok(FloatVal(f))
  }

  /** `setFieldValue` with the integer range checked against the field's own
      width: a parsed integer is stored unchanged or the field fails. */
  function SetFieldValue(kind: Kind, value: string, parsers: Parsers): (r: Result<FieldValue, FieldError>)
    ensures r.Ok? ==> HoldsKind(r.value, kind)
    ensures kind.OtherKind? <==> r == Err(Unsupported(kind))
    ensures kind == StringKind ==> r == Ok(StrVal(value))
    ensures IsIntKind(kind) ==>
      (r.Ok? <==> parsers.ParseInt(value).Some? && FitsKind(parsers.ParseInt(value).value, kind)) &&
      (r.Ok? ==> r.value == IntVal(parsers.ParseInt(value).value))
    ensures kind == BoolKind ==>
      (r.Ok? <==> parsers.ParseBool(value).Some?) &&
      (r.Ok? ==> r.value == BoolVal(parsers.ParseBool(value).value))
  {
    if IsIntKind(kind) then
      match parsers.ParseInt(value)
      case None => Err(Unparsable(kind, value))
      case Some(x) => if FitsKind(x, kind) then Ok(IntVal(x)) else Err(OutOfRange(kind, x))
    else
      SetFieldValueAsWritten(kind, value, parsers)
  }

  /** The as-written dispatch stores "300" into an int8 field as 44, with no
      error. */
  lemma Int8OverflowIsStoredTruncated(parsers: Parsers)
    requires parsers.ParseInt("300") == Some(300)
    ensures SetFieldValueAsWritten(Int8Kind, "300", parsers) == Ok(IntVal(44))
    ensures SetFieldValue(Int8Kind, "300", parsers) == Err(OutOfRange(Int8Kind, 300))
  {
  }

  /** The two dispatches differ only where the as-written one truncates: they
      agree on every input that is not an out-of-range integer. */
  lemma {:induction false} SetFieldValueAgreesInRange(kind: Kind, value: string, parsers: Parsers)
    requires !(IsIntKind(kind) && parsers.ParseInt(value).Some? && !FitsKind(parsers.ParseInt(value).value, kind))
    ensures SetFieldValue(kind, value, parsers) == SetFieldValueAsWritten(kind, value, parsers)
  {
    if IsIntKind(kind) && parsers.ParseInt(value).Some? {
      var x := parsers.ParseInt(value).value;
      TruncateKeepsFittingValue(x, kind);
    }
  }

  lemma TruncateKeepsFittingValue(x: int, k: Kind)
    requires IsIntKind(k) && FitsKind(x, k)
    ensures Truncate(x, k) == x
  {
    var m := Modulus(k);
    if x < 0 {
      assert x % m == x + m;
    } else {
      assert x % m == x;
    }
  }

  /** Which `setFieldValue` the binding loop calls: the one in server/util.go,
      which truncates integers, or the range-checked one. */
  datatype Dispatch = AsWritten | RangeChecked

  function SetField(d: Dispatch, kind: Kind, value: string, parsers: Parsers): (r: Result<FieldValue, FieldError>)
    ensures r.Ok? ==> HoldsKind(r.value, kind)
  {
    match d
    case AsWritten => SetFieldValueAsWritten(kind, value, parsers)
    case RangeChecked => SetFieldValue(kind, value, parsers)
  }

  // ---------------------------------------------------------------------
  // bindFormToStruct
  // ---------------------------------------------------------------------

  /** `values.Get(key)`: the first value given for `key`, or "". */
  function FormGet(values: Form, key: string): string
  {
    if key in values && |values[key]| > 0 then values[key][0] else ""
  }

  /** The form key of a field: its `form` tag, or its lower-cased name when
      the tag is empty. */
  function FormKey(f: FieldDesc): string
  {
    if f.Tag == "" then ToLower(f.Name) else f.Tag
  }

  /** One iteration of the binding loop: the field's value afterwards, or the
      error that stops the loop. Unsettable fields, the key "-" and an empty
      form value leave the field as it was. */
  function FieldStep(d: Dispatch, values: Form, f: FieldDesc, current: FieldValue, parsers: Parsers): Result<FieldValue, FieldError>
  {
    if !f.Settable || FormKey(f) == "-" || FormGet(values, FormKey(f)) == "" then Ok(current)
    else SetField(d, f.Kind, FormGet(values, FormKey(f)), parsers)
  }

  /** The field values and error the loop produces from field `i` on. */
  function BindFrom(d: Dispatch, values: Form, fields: seq<FieldDesc>, slots: seq<FieldValue>, parsers: Parsers, i: nat)
    : (r: (seq<FieldValue>, Option<BindError>))
    requires |slots| == |fields| && i <= |fields|
    ensures |r.0| == |slots|
    ensures r.0[..i] == slots[..i]
    decreases |fields| - i
  {
    if i == |fields| then (slots, None)
    else
      match FieldStep(d, values, fields[i], slots[i], parsers)
      case Err(e) => (slots, Some(FieldFailed(fields[i].Name, e)))
      case Ok(v) => BindFrom(d, values, fields, slots[i := v], parsers, i + 1)
  }

  /** `bindFormToStruct` on a destination that is (or is not) a pointer to a
      struct with the given fields and current values. */
  function BindFormSpec(d: Dispatch, values: Form, isStructPtr: bool, fields: seq<FieldDesc>, slots: seq<FieldValue>, parsers: Parsers)
    : (r: (seq<FieldValue>, Option<BindError>))
    requires |slots| == |fields|
    ensures !isStructPtr ==> r == (slots, Some(NotStructPointer))
  {
    if !isStructPtr then (slots, Some(NotStructPointer))
    else BindFrom(d, values, fields, slots, parsers, 0)
  }

  /** All fields from `i` to `j` (inclusive) bind without error. */
  predicate StepsOk(d: Dispatch, values: Form, fields: seq<FieldDesc>, slots: seq<FieldValue>, parsers: Parsers, i: nat, j: nat)
    requires |slots| == |fields| && j < |fields|
  {
    forall k :: i <= k <= j ==> FieldStep(d, values, fields[k], slots[k], parsers).Ok?
  }

  /** Binding succeeds exactly when every field from `i` on binds. */
  lemma {:induction false} BindSucceedsIff(d: Dispatch, values: Form, fields: seq<FieldDesc>, slots: seq<FieldValue>, parsers: Parsers, i: nat)
    requires |slots| == |fields| && i <= |fields|
    ensures BindFrom(d, values, fields, slots, parsers, i).1 == None <==>
      forall k :: i <= k < |fields| ==> FieldStep(d, values, fields[k], slots[k], parsers).Ok?
    decreases |fields| - i
  {
    if i < |fields| {
      match FieldStep(d, values, fields[i], slots[i], parsers)
      case Err(e) =>
      case Ok(v) =>
        var slots' := slots[i := v];
        BindSucceedsIff(d, values, fields, slots', parsers, i + 1);
        assert forall k :: i < k < |fields| ==> slots'[k] == slots[k];
    }
  }

  /** Where each field ends up: a field at or after `i` holds its newly bound
      value when it and every field before it (from `i`) bound without
      error, and keeps its old value otherwise — so a failure leaves the
      fields before it bound and every field from it on untouched. */
  lemma {:induction false} BindFieldValue(d: Dispatch, values: Form, fields: seq<FieldDesc>, slots: seq<FieldValue>, parsers: Parsers, i: nat, j: nat)
    requires |slots| == |fields| && i <= j < |fields|
    ensures BindFrom(d, values, fields, slots, parsers, i).0[j] ==
      if StepsOk(d, values, fields, slots, parsers, i, j)
      then FieldStep(d, values, fields[j], slots[j], parsers).value
      else slots[j]
    decreases |fields| - i
  {
    match FieldStep(d, values, fields[i], slots[i], parsers)
    case Err(e) =>
    case Ok(v) =>
      var slots' := slots[i := v];
      if j == i {
        assert BindFrom(d, values, fields, slots', parsers, i + 1).0[..i + 1] == slots'[..i + 1];
      } else {
        BindFieldValue(d, values, fields, slots', parsers, i + 1, j);
        assert forall k :: i < k < |fields| ==> slots'[k] == slots[k];
        assert StepsOk(d, values, fields, slots', parsers, i + 1, j) == StepsOk(d, values, fields, slots, parsers, i, j);
      }
  }

  /** A binding error names the first field from `i` on that failed, with
      that field's own error. */
  lemma {:induction false} BindErrorNamesFirstFailure(d: Dispatch, values: Form, fields: seq<FieldDesc>, slots: seq<FieldValue>, parsers: Parsers, i: nat)
    requires |slots| == |fields| && i <= |fields|
    requires BindFrom(d, values, fields, slots, parsers, i).1.Some?
    ensures exists k :: (i <= k < |fields| &&
      FieldStep(d, values, fields[k], slots[k], parsers).Err? &&
      BindFrom(d, values, fields, slots, parsers, i).1.value ==
        FieldFailed(fields[k].Name, FieldStep(d, values, fields[k], slots[k], parsers).error) &&
      forall m :: i <= m < k ==> FieldStep(d, values, fields[m], slots[m], parsers).Ok?)
    decreases |fields| - i
  {
    match FieldStep(d, values, fields[i], slots[i], parsers)
    case Err(e) =>
    case Ok(v) =>
      var slots' := slots[i := v];
      BindErrorNamesFirstFailure(d, values, fields, slots', parsers, i + 1);
      var k :| (i + 1 <= k < |fields| &&
        FieldStep(d, values, fields[k], slots'[k], parsers).Err? &&
        BindFrom(d, values, fields, slots', parsers, i + 1).1.value ==
          FieldFailed(fields[k].Name, FieldStep(d, values, fields[k], slots'[k], parsers).error) &&
        forall m :: i + 1 <= m < k ==> FieldStep(d, values, fields[m], slots'[m], parsers).Ok?);
      assert slots'[k] == slots[k];
      assert forall m :: i + 1 <= m < k ==> slots'[m] == slots[m];
  }

  /** A field that is not settable, is tagged "-", or has no (or an empty)
      form value is never written. */
  lemma SkippedFieldUntouched(d: Dispatch, values: Form, fields: seq<FieldDesc>, slots: seq<FieldValue>, parsers: Parsers, j: nat)
    requires |slots| == |fields| && j < |fields|
    requires !fields[j].Settable || FormKey(fields[j]) == "-" || FormGet(values, FormKey(fields[j])) == ""
    ensures BindFrom(d, values, fields, slots, parsers, 0).0[j] == slots[j]
  {
    BindFieldValue(d, values, fields, slots, parsers, 0, j);
  }

  /** After a successful bind every field that had a non-empty form value
      under its key holds what the dispatch made of that value. */
  lemma BoundFieldHoldsParsedValue(d: Dispatch, values: Form, fields: seq<FieldDesc>, slots: seq<FieldValue>, parsers: Parsers, j: nat)
    requires |slots| == |fields| && j < |fields|
    requires BindFrom(d, values, fields, slots, parsers, 0).1 == None
    requires fields[j].Settable && FormKey(fields[j]) != "-" && FormGet(values, FormKey(fields[j])) != ""
    ensures SetField(d, fields[j].Kind, FormGet(values, FormKey(fields[j])), parsers) ==
      Ok(BindFrom(d, values, fields, slots, parsers, 0).0[j])
    ensures HoldsKind(BindFrom(d, values, fields, slots, parsers, 0).0[j], fields[j].Kind)
  {
    BindSucceedsIff(d, values, fields, slots, parsers, 0);
    BindFieldValue(d, values, fields, slots, parsers, 0, j);
  }

  /** The truncation reaches the struct: binding `x=300` into a settable
      `int8` field `X` stores 44 and reports no error as written, while the
      range-checked loop stops with the field untouched. */
  lemma Int8OverflowBoundTruncated(parsers: Parsers)
    requires parsers.ParseInt("300") == Some(300)
    ensures var fields := [FieldDesc("X", "", Int8Kind, true)];
      var values := map["x" := ["300"]];
      BindFormSpec(AsWritten, values, true, fields, [IntVal(0)], parsers) == ([IntVal(44)], None) &&
      BindFormSpec(RangeChecked, values, true, fields, [IntVal(0)], parsers) ==
        ([IntVal(0)], Some(FieldFailed("X", OutOfRange(Int8Kind, 300))))
  {
    var f := FieldDesc("X", "", Int8Kind, true);
    assert ToLower("X") == "x";
    assert FormKey(f) == "x";
    Int8OverflowIsStoredTruncated(parsers);
    assert [IntVal(0)][0 := IntVal(44)] == [IntVal(44)];
  }

  /** `bindFormToStruct`: checks the destination, then walks the fields in
      order, writing each bound value into `dest` and stopping at the first
      field that fails. */
  method BindFormToStruct(d: Dispatch, values: Form, isStructPtr: bool, fields: seq<FieldDesc>, dest: array<FieldValue>, parsers: Parsers)
    returns (err: Option<BindError>)
    requires dest.Length == |fields|
    modifies dest
    ensures (dest[..], err) == BindFormSpec(d, values, isStructPtr, fields, old(dest[..]), parsers)
  {
    if !isStructPtr {
      return Some(NotStructPointer);
    }
    var i := 0;
    while i < |fields|
      invariant 0 <= i <= |fields|
      invariant BindFrom(d, values, fields, dest[..], parsers, i) == BindFrom(d, values, fields, old(dest[..]), parsers, 0)
    {
      var f := fields[i];
      ghost var before := dest[..];
      assert before[i := before[i]] == before;
      if !f.Settable {
        i := i + 1;
        continue;
      }
      var tagName := f.Tag;
      if tagName == "" {
        tagName := ToLower(f.Name);
      }
      if tagName == "-" {
        i := i + 1;
        continue;
      }
      var formValue := FormGet(values, tagName);
      if formValue == "" {
        i := i + 1;
        continue;
      }
      var outcome := SetField(d, f.Kind, formValue, parsers);
      if outcome.Err? {
        return Some(FieldFailed(f.Name, outcome.error));
      }
      dest[i] := outcome.value;
      assert dest[..] == before[i := outcome.value];
      i := i + 1;
    }
    return None;
  }
}
