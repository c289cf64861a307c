/** Every operation of the argument reader as a pure step from one reader
    state to the next: the specification the class in module Reader is
    proved against, and the place where properties over several reads are
    stated. */
module Reads {
  import opened Lua
  import opened Errors

  /** What a reader changes: its cursor (a 1-based frame index), its error
      record and its pending warning. */
  datatype ReaderState = ReaderState(index: int, err: ErrorState, warning: string)

  /** The state a reader is constructed in: cursor at the first argument,
      no error, no warning. */
  const Initial := ReaderState(1, NoError, "")

  /** The output a read writes and the state it leaves behind. */
  datatype Step<T> = Step(out: T, next: ReaderState)

  const NonConvertibleWarning: string :=
    "Expected number, got non-convertible string. This warning may be an error in future versions."
  const NegativeWarning: string :=
    "Expected positive value, got negative. This warning may be an error in future versions."
  const NaNReason: string := "Expected number, got NaN"

  /** The slot under the cursor. */
  function Current(s: ReaderState, frame: Frame): Slot {
    At(frame, s.index)
  }

  /** The state after a read that failed with a type error at the cursor. */
  function Mismatch(s: ReaderState, expected: string): ReaderState {
    ReaderState(s.index + 1, TypeError(s.err, expected, s.index), s.warning)
  }

  /** ReadNumber, both forms: `default` is `None` for the form without one.
      `isUnsigned` is whether the target type is unsigned. */
  function ReadNumber(s: ReaderState, frame: Frame, default: Option<int>, isUnsigned: bool, checkSign: bool)
    : (r: Step<int>)
    ensures r.next.index == s.index + 1
    // a string the parser rejects: a warning and the runtime's 0, no error
    ensures Current(s, frame).Str? && Current(s, frame).parsed.None? ==>
      r.out == 0 && r.next.err == s.err && r.next.warning == NonConvertibleWarning
    // a NaN: the custom error, whatever the default, and 0
    ensures IsNumber(Current(s, frame)) && ToNumber(Current(s, frame)).NaN? ==>
      r.out == 0 && r.next.err == CustomError(s.err, NaNReason, BadArgument) && r.next.warning == s.warning
    // any other number: its value; a negative one for an unsigned target also warns
    ensures IsNumber(Current(s, frame)) && ToNumber(Current(s, frame)).Finite? ==>
      && r.out == ToNumber(Current(s, frame)).value
      && r.next.err == s.err
      && r.next.warning ==
         if isUnsigned && checkSign && r.out < 0 then NegativeWarning else s.warning
    // nothing there and a default: exactly the default
    ensures IsNilOrNone(Current(s, frame)) && default.Some? ==>
      r.out == default.value && r.next.err == s.err && r.next.warning == s.warning
    // anything else: 0 and a type error at this index
    ensures (!(Current(s, frame).Number? || Current(s, frame).Str?)
             && !(IsNilOrNone(Current(s, frame)) && default.Some?)) ==>
      r.out == 0 && r.next == Mismatch(s, "number")
  {
    var v := Current(s, frame);
    if v.Number? || v.Str? then
      var warning := if !IsNumber(v) then NonConvertibleWarning else s.warning;
      var s1 := s.(index := s.index + 1, warning := warning);
      match ToNumber(v)
      case NaN => Step(0, s1.(err := CustomError(s1.err, NaNReason, BadArgument)))
      case Finite(x) =>
        if isUnsigned && checkSign && x < 0 then Step(x, s1.(warning := NegativeWarning))
        else Step(x, s1)
    else if IsNilOrNone(v) && default.Some? then
      Step(default.value, s.(index := s.index + 1))
    else
      Step(0, Mismatch(s, "number"))
  }

  /** ReadBool, both forms. Booleans are never coerced from other types. */
  function ReadBool(s: ReaderState, frame: Frame, default: Option<bool>): (r: Step<bool>)
    ensures r.next.index == s.index + 1
    ensures r.next.warning == s.warning
    ensures Current(s, frame).Boolean? ==> r.out == Current(s, frame).b && r.next.err == s.err
    ensures IsNilOrNone(Current(s, frame)) && default.Some? ==>
      r.out == default.value && r.next.err == s.err
    ensures !Current(s, frame).Boolean? && !(IsNilOrNone(Current(s, frame)) && default.Some?) ==>
      !r.out && r.next == Mismatch(s, "bool")
  {
    var v := Current(s, frame);
    if v.Boolean? then Step(v.b, s.(index := s.index + 1))
    else if IsNilOrNone(v) && default.Some? then Step(default.value, s.(index := s.index + 1))
    else Step(false, Mismatch(s, "bool"))
  }

  /** ReadString. A string is copied whole (its length is taken from the
      runtime), a number is copied as the runtime's text for it. */
  function ReadString(s: ReaderState, frame: Frame, default: Option<CStr>): (r: Step<string>)
    ensures r.next.index == s.index + 1
    ensures r.next.warning == s.warning
    ensures Current(s, frame).Str? ==> r.out == Current(s, frame).s && r.next.err == s.err
    ensures Current(s, frame).Number? ==>
      r.out == NumberText(Current(s, frame).n) && r.next.err == s.err
    ensures IsNilOrNone(Current(s, frame)) && default.Some? ==>
      r.out == default.value && r.next.err == s.err
    ensures (!(Current(s, frame).Str? || Current(s, frame).Number?)
             && !(IsNilOrNone(Current(s, frame)) && default.Some?)) ==>
      r.out == "" && r.next == Mismatch(s, "string")
  {
    var v := Current(s, frame);
    if v.Str? then Step(v.s, s.(index := s.index + 1))
    else if v.Number? then Step(NumberText(v.n), s.(index := s.index + 1))
    else if IsNilOrNone(v) && default.Some? then Step(default.value, s.(index := s.index + 1))
    else Step("", Mismatch(s, "string"))
  }

  /** ReadAnyAString for a slot without a "__tostring" metamethod. The
      string is copied as a C string, so it stops at its first NUL; a slot
      of another type is described by its type name and `address`, the
      host's identity for the value. */
  function ReadAnyAString(s: ReaderState, frame: Frame, address: int): (r: Step<string>)
    ensures r.next.index == s.index + 1
    ensures r.next.warning == s.warning
    ensures r.next.err == if Current(s, frame).Absent? then TypeError(s.err, "non-none", s.index) else s.err
    ensures Current(s, frame).Str? ==> r.out == CString(Current(s, frame).s)
    ensures Current(s, frame).Number? ==> r.out == NumberText(Current(s, frame).n)
    ensures Current(s, frame).Boolean? ==> r.out == if Current(s, frame).b then "true" else "false"
    ensures Current(s, frame).Nil? ==> r.out == "nil"
    ensures Current(s, frame).Absent? ==> r.out == ""
    ensures (Current(s, frame).Table? || Current(s, frame).Function? || IsUserData(Current(s, frame))
             || Current(s, frame).Thread?) ==>
      r.out == TypeName(Current(s, frame)) + ": " + DecimalText(address)
  {
    var v := Current(s, frame);
    var next := s.(index := s.index + 1);
    match v
    case Number(n) => Step(NumberText(n), next)
    case Str(t, _) => Step(CString(t), next)
    case Boolean(b) => Step(if b then "true" else "false", next)
    case Nil => Step("nil", next)
    case Absent => Step("", Mismatch(s, "non-none"))
    case _ => Step(TypeName(v) + ": " + DecimalText(address), next)
  }

  /** InternalReadUserData, with `default` `None` when there is none. It
      never records an error (its type error is disabled in the source), so
      `allowNil` changes nothing that can be observed. */
  function ReadUserData(s: ReaderState, frame: Frame, allowNil: bool, default: Option<Ptr>): (r: Step<Ptr>)
    ensures r.next == s.(index := s.index + 1)
    ensures IsUserData(Current(s, frame)) ==>
      r.out == UserDataCast(Current(s, frame).p)
    ensures IsNilOrNone(Current(s, frame)) ==> r.out == if default.Some? then default.value else Null
    ensures !(IsUserData(Current(s, frame)) || IsNilOrNone(Current(s, frame))) ==> r.out == Null
  {
    var v := Current(s, frame);
    var next := s.(index := s.index + 1);
    if IsUserData(v) then
      var p := UserDataCast(v.p);
      if p != Null then Step(p, next) else Step(Null, next)
    else if IsNilOrNone(v) then
      var p := if default.Some? then default.value else Null;
      if p != Null || allowNil then Step(p, next) else Step(Null, next)
    else
      Step(Null, next)
  }

  /** The numbers among a table's values, in iteration order. */
  function NumericEntries(entries: seq<Slot>): (r: seq<Num>)
    ensures |r| <= |entries|
    ensures forall x :: x in r <==> Number(x) in entries
    decreases |entries|
  {
    if entries == [] then []
    else (if entries[0].Number? then [entries[0].n] else []) + NumericEntries(entries[1..])
  }

  /** Collecting over a concatenation is collecting over each part. */
  lemma {:induction false} NumericEntriesAppend(a: seq<Slot>, b: seq<Slot>)
    ensures NumericEntries(a + b) == NumericEntries(a) + NumericEntries(b)
    decreases |a|
  {
    if a != [] {
      assert (a + b)[0] == a[0];
      assert (a + b)[1..] == a[1..] + b;
      NumericEntriesAppend(a[1..], b);
    } else {
      assert a + b == b;
    }
  }

  /** A table holding only numbers yields all of them, in order. */
  lemma {:induction false} AllNumbersKept(entries: seq<Slot>)
    requires forall k :: 0 <= k < |entries| ==> entries[k].Number?
    ensures NumericEntries(entries) == seq(|entries|, k requires 0 <= k < |entries| => entries[k].n)
    decreases |entries|
  {
    if entries != [] {
      AllNumbersKept(entries[1..]);
    }
  }

  /** ReadNumberTable: the output is cleared first; a table yields its
      numeric values, anything else a type error and an empty output. */
  function ReadNumberTable(s: ReaderState, frame: Frame): (r: Step<seq<Num>>)
    ensures r.next.index == s.index + 1
    ensures r.next.warning == s.warning
    ensures Current(s, frame).Table? ==>
      r.out == NumericEntries(Current(s, frame).entries) && r.next.err == s.err
    ensures !Current(s, frame).Table? ==> r.out == [] && r.next == Mismatch(s, "table")
  {
    var v := Current(s, frame);
    if v.Table? then Step(NumericEntries(v.entries), s.(index := s.index + 1))
    else Step([], Mismatch(s, "table"))
  }

  /** ReadLuaArgument, for the cursor and the error record only: any slot
      but an absent one is taken. */
  function ReadLuaArgument(s: ReaderState, frame: Frame): (r: ReaderState)
    ensures r.index == s.index + 1
    ensures r.warning == s.warning
    ensures r.err == if Current(s, frame).Absent? then TypeError(s.err, "argument", s.index) else s.err
  {
    if !Current(s, frame).Absent? then s.(index := s.index + 1)
    else Mismatch(s, "argument")
  }

  /** HasErrors. With `checkUnusedArgs`, an argument left at the cursor is
      reported without being recorded; otherwise the recorded flag is
      reported and, when it is clear, the pending warning is dropped. */
  function HasErrors(s: ReaderState, frame: Frame, checkUnusedArgs: bool): (r: Step<bool>)
    ensures checkUnusedArgs && !Current(s, frame).Absent? ==> r.out && r.next == s
    ensures !(checkUnusedArgs && !Current(s, frame).Absent?) ==>
      && r.out == s.err.error
      && r.next == s.(warning := if s.err.error then s.warning else "")
  {
    if checkUnusedArgs && !Current(s, frame).Absent? then Step(true, s)
    else if !s.err.error && s.warning != "" then Step(s.err.error, s.(warning := ""))
    else Step(s.err.error, s)
  }

  // ---------------------------------------------------------------------
  // A native function's parameter list, read left to right
  // ---------------------------------------------------------------------

  /** One declared parameter: which read it uses and its default. */
  datatype Param =
    | NumberParam(numberDefault: Option<int>, isUnsigned: bool)
    | BoolParam(boolDefault: Option<bool>)
    | StringParam(stringDefault: Option<CStr>)
    | UserDataParam(userDataDefault: Option<Ptr>)
    | AnyStringParam(address: int)
    | NumberTableParam
    | LuaArgumentParam

  function ReadParam(s: ReaderState, frame: Frame, p: Param): ReaderState {
    match p
    case NumberParam(d, u) => ReadNumber(s, frame, d, u, true).next
    case BoolParam(d) => ReadBool(s, frame, d).next
    case StringParam(d) => ReadString(s, frame, d).next
    case UserDataParam(d) => ReadUserData(s, frame, false, d).next
    case AnyStringParam(a) => ReadAnyAString(s, frame, a).next
    case NumberTableParam => ReadNumberTable(s, frame).next
    case LuaArgumentParam => ReadLuaArgument(s, frame)
  }

  function ReadParams(s: ReaderState, frame: Frame, ps: seq<Param>): ReaderState
    decreases |ps|
  {
    if ps == [] then s else ReadParams(ReadParam(s, frame, ps[0]), frame, ps[1..])
  }

  /** The slot's type does not fit the parameter and no default stands in. */
  predicate Mismatches(p: Param, v: Slot) {
    match p
    case NumberParam(d, _) => !(v.Number? || v.Str?) && !(IsNilOrNone(v) && d.Some?)
    case BoolParam(d) => !v.Boolean? && !(IsNilOrNone(v) && d.Some?)
    case StringParam(d) => !(v.Str? || v.Number?) && !(IsNilOrNone(v) && d.Some?)
    case UserDataParam(_) => false
    case AnyStringParam(_) => v.Absent?
    case NumberTableParam => !v.Table?
    case LuaArgumentParam => v.Absent?
  }

  /** The slot makes the read record the NaN error. */
  predicate IsNaNFor(p: Param, v: Slot) {
    p.NumberParam? && IsNumber(v) && ToNumber(v).NaN?
  }

  function ExpectedName(p: Param): string {
    match p
    case NumberParam(_, _) => "number"
    case BoolParam(_) => "bool"
    case StringParam(_) => "string"
    case UserDataParam(_) => ""
    case AnyStringParam(_) => "non-none"
    case NumberTableParam => "table"
    case LuaArgumentParam => "argument"
  }

  /** Each parameter consumes exactly one slot, whatever it holds. */
  lemma {:induction false} ReadParamsAdvance(s: ReaderState, frame: Frame, ps: seq<Param>)
    ensures ReadParams(s, frame, ps).index == s.index + |ps|
    decreases |ps|
  {
    if ps != [] {
      ReadParamsAdvance(ReadParam(s, frame, ps[0]), frame, ps[1..]);
    }
  }

  /** An error already recorded before the cursor survives every later read. */
  lemma {:induction false} LaterReadsKeepError(s: ReaderState, frame: Frame, ps: seq<Param>)
    requires s.err.error && s.err.index < s.index
    ensures ReadParams(s, frame, ps).err == s.err
    decreases |ps|
  {
    if ps != [] {
      var s1 := ReadParam(s, frame, ps[0]);
      assert s1.err == s.err && s1.index == s.index + 1;
      LaterReadsKeepError(s1, frame, ps[1..]);
    }
  }

  /** Reading a parameter list from a reader without an error reports the
      first parameter whose slot does not fit, provided no NaN came before
      it: later failures, at later indices, never displace it. */
  lemma {:induction false} FirstMismatchReported(s: ReaderState, frame: Frame, ps: seq<Param>, k: nat)
    requires !s.err.error
    requires k < |ps| && Mismatches(ps[k], At(frame, s.index + k))
    requires forall j :: 0 <= j < k ==>
      !Mismatches(ps[j], At(frame, s.index + j)) && !IsNaNFor(ps[j], At(frame, s.index + j))
    ensures var r := ReadParams(s, frame, ps);
      r.err.error && r.err.index == s.index + k && r.err.expectedType == ExpectedName(ps[k])
      && r.err.category == BadArgument
    decreases k
  {
    var s1 := ReadParam(s, frame, ps[0]);
    if k == 0 {
      assert s1.err.error && s1.err.index == s.index && s1.err.expectedType == ExpectedName(ps[0]);
      LaterReadsKeepError(s1, frame, ps[1..]);
    } else {
      assert !Mismatches(ps[0], At(frame, s.index)) && !IsNaNFor(ps[0], At(frame, s.index));
      assert s1.err == s.err && s1.index == s.index + 1;
      forall j | 0 <= j < k - 1
        ensures !Mismatches(ps[1..][j], At(frame, s1.index + j)) && !IsNaNFor(ps[1..][j], At(frame, s1.index + j))
      {
        assert ps[1..][j] == ps[j + 1] && s1.index + j == s.index + (j + 1);
      }
      assert ps[1..][k - 1] == ps[k];
      FirstMismatchReported(s1, frame, ps[1..], k - 1);
    }
  }

  /** Reading (number, string with default "x", handle) from the frame
      [42, nil, true] yields 42, "x" and the null handle. The mismatched
      handle records no error: the reader's handle read never does. */
  lemma NumberStringHandleScenario()
    ensures var frame := [Number(Finite(42)), Nil, Boolean(true)];
      var a := ReadNumber(Initial, frame, None, false, true);
      var b := ReadString(a.next, frame, Some("x"));
      var c := ReadUserData(b.next, frame, false, None);
      && a.out == 42 && b.out == "x" && c.out == Null
      && c.next == ReaderState(4, NoError, "")
  {
  }
}
