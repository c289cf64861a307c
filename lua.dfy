/** The host runtime's view of a call frame, as far as the argument reader
    uses it: the dynamically typed slot values, their type tags, and the
    runtime's number and text conversions. */
module Lua {

  datatype Option<T> = None | Some(value: T)

  /** A runtime number. Floating point is not modelled beyond the one value
      the reader treats specially: NaN. Every other number is an integer. */
  datatype Num = NaN | Finite(value: int)

  /** A raw foreign pointer; 0 is the null pointer. */
  type Ptr = nat

  const Null: Ptr := 0

  /** A C string: text without an embedded NUL character. */
  type CStr = s: string | '\0' !in s witness ""

  /** One value of a call frame. `Absent` is what the runtime reports for an
      index past the last argument (LUA_TNONE). A string carries the result of
      the runtime's numeric parser on it (`None` when it does not parse). A
      full userdata carries the pointer stored in its block; a table carries
      its values in the runtime's iteration order. A coroutine is a `Thread`. */
  datatype Slot =
    | Absent
    | Nil
    | Boolean(b: bool)
    | Number(n: Num)
    | Str(s: string, parsed: Option<Num>)
    | LightUserData(p: Ptr)
    | UserData(p: Ptr)
    | Table(entries: seq<Slot>)
    | Function
    | Thread

  type Frame = seq<Slot>

  /** The type tags of lua_type. */
  datatype LuaType =
    TNone | TNil | TBoolean | TLightUserData | TNumber | TString | TTable | TFunction | TUserData | TThread

  /** What each type tag means for a slot, case by case. */
  predicate HasType(v: Slot, t: LuaType) {
    match t
    case TNone => v.Absent?
    case TNil => v.Nil?
    case TBoolean => v.Boolean?
    case TLightUserData => v.LightUserData?
    case TNumber => v.Number?
    case TString => v.Str?
    case TTable => v.Table?
    case TFunction => v.Function?
    case TUserData => v.UserData?
    case TThread => v.Thread?
  }

  /** lua_type: the one tag the slot has. */
  function TypeOf(v: Slot): (t: LuaType)
    ensures forall u :: HasType(v, u) <==> u == t
  {
    match v
    case Absent => TNone
    case Nil => TNil
    case Boolean(_) => TBoolean
    case Number(_) => TNumber
    case Str(_, _) => TString
    case LightUserData(_) => TLightUserData
    case UserData(_) => TUserData
    case Table(_) => TTable
    case Function => TFunction
    case Thread => TThread
  }

  /** The slot at a 1-based frame index; `Absent` outside 1..|frame|.
      Negative indices, which the runtime counts from the top of the
      stack, are not modelled: they read as `Absent` too. */
  function At(frame: Frame, i: int): (v: Slot)
    ensures 1 <= i <= |frame| ==> v == frame[i - 1]
    ensures !(1 <= i <= |frame|) ==> v == Absent
  {
    if 1 <= i <= |frame| then frame[i - 1] else Absent
  }

  predicate IsNilOrNone(v: Slot) {
    v.Absent? || v.Nil?
  }

  /** Either kind of handle: a light userdata or a full one. */
  predicate IsUserData(v: Slot) {
    v.LightUserData? || v.UserData?
  }

  /** lua_isnumber: a number, or a string the numeric parser accepts. */
  function IsNumber(v: Slot): (r: bool)
    ensures v.Number? ==> r
    ensures v.Str? ==> (r <==> v.parsed.Some?)
    ensures !(v.Number? || v.Str?) ==> !r
  {
    v.Number? || (v.Str? && v.parsed.Some?)
  }

  /** lua_tonumber: 0 for everything that is not convertible. */
  function ToNumber(v: Slot): (n: Num)
    ensures !IsNumber(v) ==> n == Finite(0)
    ensures v.Number? ==> n == v.n
  {
    match v
    case Number(n) => n
    case Str(_, Some(n)) => n
    case _ => Finite(0)
  }

  /** luaL_typename. Both kinds of userdata are named "userdata". */
  function TypeName(v: Slot): (r: string)
    ensures |r| > 0 && '\0' !in r
    ensures r == "userdata" <==> IsUserData(v)
    ensures r == "no value" <==> v.Absent?
  {
    match v
    case Absent => "no value"
    case Nil => "nil"
    case Boolean(_) => "boolean"
    case Number(_) => "number"
    case Str(_, _) => "string"
    case LightUserData(_) => "userdata"
    case UserData(_) => "userdata"
    case Table(_) => "table"
    case Function => "function"
    case Thread => "thread"
  }

  /** Two slots get the same type name exactly when they have the same type
      tag or are both handles. */
  lemma TypeNameDistinguishesTypes(v: Slot, w: Slot)
    ensures TypeName(v) == TypeName(w) <==> TypeOf(v) == TypeOf(w) || (IsUserData(v) && IsUserData(w))
  {
  }

  /** The cast hook of the handle registry: a plain reinterpretation, so a
      null pointer stays null and no other pointer becomes null. */
  function UserDataCast(p: Ptr): (r: Ptr)
    ensures r == Null <==> p == Null
  {
    p
  }

  // ---------------------------------------------------------------------
  // Decimal text of integers (the runtime's number-to-text rule and
  // std::to_string, for the integers this model has)
  // ---------------------------------------------------------------------

  predicate IsDigit(c: char) {
    '0' <= c <= '9'
  }

  function DigitChar(d: nat): (c: char)
    requires d < 10
    ensures IsDigit(c) && c as int - '0' as int == d
  {
    ('0' as int + d) as char
  }

  /** The digits of `n`, most significant first, without leading zeros. */
  function Digits(n: nat): (r: string)
    ensures |r| >= 1
    ensures forall k :: 0 <= k < |r| ==> IsDigit(r[k])
    ensures |r| > 1 ==> r[0] != '0'
    decreases n
  {
    if n < 10 then [DigitChar(n)] else Digits(n / 10) + [DigitChar(n % 10)]
  }

  /** The value of a run of decimal digits. */
  function DigitsValue(s: string): nat
    requires forall k :: 0 <= k < |s| ==> IsDigit(s[k])
    decreases |s|
  {
    if s == [] then 0
    else
      assert IsDigit(s[|s| - 1]);
      DigitsValue(s[..|s| - 1]) * 10 + (s[|s| - 1] as int - '0' as int)
  }

  lemma {:induction false} DigitsRoundTrip(n: nat)
    ensures DigitsValue(Digits(n)) == n
    decreases n
  {
    if n >= 10 {
      var r := Digits(n);
      assert r[..|r| - 1] == Digits(n / 10);
      DigitsRoundTrip(n / 10);
    }
  }

  /** Signed decimal text, as "%d" or std::to_string writes an integer. */
  function DecimalText(i: int): (r: string)
    ensures |r| >= 1
    ensures '\0' !in r
    ensures r[0] == '-' <==> i < 0
    ensures forall k :: (if i < 0 then 1 else 0) <= k < |r| ==> IsDigit(r[k])
  {
    if i < 0 then "-" + Digits(-i) else Digits(i)
  }

  /** Reads back what DecimalText writes. */
  function ParseDecimal(s: string): Option<int> {
    if |s| > 0 && s[0] == '-' then
      if |s| > 1 && forall k :: 1 <= k < |s| ==> IsDigit(s[k]) then Some(0 - DigitsValue(s[1..]) as int) else None
    else if |s| > 0 && forall k :: 0 <= k < |s| ==> IsDigit(s[k]) then Some(DigitsValue(s))
    else None
  }

  /** The text of an integer determines the integer. */
  lemma DecimalRoundTrip(i: int)
    ensures ParseDecimal(DecimalText(i)) == Some(i)
  {
    DigitsRoundTrip(if i < 0 then -i else i);
    if i < 0 {
      var r := DecimalText(i);
      assert r[1..] == Digits(-i);
    }
  }

  /** lua_tostring of a number slot. A NaN is written "nan". */
  function NumberText(n: Num): (r: string)
    ensures '\0' !in r
    ensures n.Finite? ==> ParseDecimal(r) == Some(n.value)
  {
    match n
    case NaN => "nan"
    case Finite(i) => DecimalRoundTrip(i); DecimalText(i)
  }

  /** What a `const char*` copy of a runtime string keeps: the text before
      the first NUL character. */
  function CString(s: string): (r: CStr)
    ensures r <= s
    ensures '\0' !in s ==> r == s
    ensures |r| < |s| ==> s[|r|] == '\0'
  {
    if s == [] || s[0] == '\0' then "" else [s[0]] + CString(s[1..])
  }
}
