/** The argument reader itself: one object per native call, over that
    call's frame, whose typed reads update its cursor and error fields in
    place. Every method is proved against its step in module Reads. */
module Reader {
  import opened Lua
  import opened Errors
  import Reads

  class ScriptArgReader {
    /** The call frame; the reader never writes to it. */
    const frame: Frame

    var index: int                  // the cursor, a 1-based frame index
    var error: bool
    var errorIndex: int
    var errorExpectedType: string
    var errorCategory: string
    var hasCustomMessage: bool
    var customMessage: string
    var customWarning: string

    /** The abstract value of the fields the reads change. */
    ghost function State(): Reads.ReaderState
      reads this
    {
      Reads.ReaderState(
        index,
        ErrorState(error, errorIndex, errorExpectedType, errorCategory, hasCustomMessage, customMessage),
        customWarning)
    }

    ghost predicate Valid()
      reads this
    {
      Consistent(State().err)
    }

    constructor (frame: Frame)
      ensures Valid()
      ensures this.frame == frame
      ensures State() == Reads.Initial
    {
      this.frame := frame;
      index := 1;
      errorIndex := 0;
      error := false;
      hasCustomMessage := false;
      errorExpectedType, errorCategory, customMessage, customWarning := "", "", "", "";
    }

    // -------------------------------------------------------------------
    // Error and warning bookkeeping
    // -------------------------------------------------------------------

    /** `at` is the index the error is about; -1 stands for the cursor. */
    method SetTypeError(expectedType: string, at: int := -1)
      requires Valid()
      modifies this
      ensures Valid()
      ensures State() == old(State()).(err := TypeError(old(State()).err, expectedType,
                                                        if at == -1 then old(index) else at))
    {
      var i := if at == -1 then index else at;
      if !error || i <= errorIndex {
        error := true;
        errorIndex := i;
        errorExpectedType := expectedType;
        errorCategory := BadArgument;
      }
    }

    method SetCustomError(reason: CStr, category: CStr := BadUsage)
      requires Valid()
      modifies this
      ensures Valid()
      ensures State() == old(State()).(err := CustomError(old(State()).err, reason, category))
      // on a reader without an error, this is the custom error of a fresh record
      ensures !old(error) ==> State().err == CustomError(NoError, reason, category) && errorIndex == 0
    {
      if !error {
        error := true;
        errorCategory := category;
        hasCustomMessage := true;
        customMessage := reason;
      }
    }

    /** The warning is last-write-wins. */
    method SetCustomWarning(message: string)
      requires Valid()
      modifies this
      ensures Valid()
      ensures State() == old(State()).(warning := message)
    {
      customWarning := message;
    }

    method HasErrors(checkUnusedArgs: bool := false) returns (r: bool)
      requires Valid()
      modifies this
      ensures Valid()
      ensures Reads.HasErrors(old(State()), frame, checkUnusedArgs) == Reads.Step(r, State())
      // no error reported means a record as clean as a fresh one
      ensures !r ==> State().err == NoError
    {
      if checkUnusedArgs && TypeOf(At(frame, index)) != TNone {
        return true;
      }
      // The warning would be logged here; the log call is disabled, so it
      // is only dropped.
      if !error && customWarning != "" {
        customWarning := "";
      }
      r := error;
    }

    method Skip(n: int)
      requires Valid()
      modifies this
      ensures Valid()
      ensures State() == old(State()).(index := old(index) + n)
    {
      index := index + n;
    }

    // -------------------------------------------------------------------
    // Typed reads
    // -------------------------------------------------------------------

    /** ReadNumber without a default. `isUnsigned` is whether the target
        type is unsigned. */
    method ReadNumber(isUnsigned: bool, checkSign: bool := true) returns (out: int)
      requires Valid()
      modifies this
      ensures Valid()
      ensures Reads.ReadNumber(old(State()), frame, None, isUnsigned, checkSign) == Reads.Step(out, State())
    {
      var v := At(frame, index);
      if v.Number? || v.Str? {
        if !IsNumber(v) {
          SetCustomWarning(Reads.NonConvertibleWarning);
        }
        var number := ToNumber(v);
        index := index + 1;
        if number.NaN? {
          SetCustomError(Reads.NaNReason, BadArgument);
          out := 0;
          return;
        }
        if isUnsigned {
          if checkSign && number.value < 0 {
            SetCustomWarning(Reads.NegativeWarning);
          }
          out := number.value;
          return;
        }
        out := number.value;
        return;
      }
      out := 0;
      SetTypeError("number");
      index := index + 1;
    }

    method ReadNumberWithDefault(default: int, isUnsigned: bool, checkSign: bool := true) returns (out: int)
      requires Valid()
      modifies this
      ensures Valid()
      ensures Reads.ReadNumber(old(State()), frame, Some(default), isUnsigned, checkSign) == Reads.Step(out, State())
    {
      var v := At(frame, index);
      if v.Number? || v.Str? {
        if !IsNumber(v) {
          SetCustomWarning(Reads.NonConvertibleWarning);
        }
        var number := ToNumber(v);
        index := index + 1;
        if number.NaN? {
          SetCustomError(Reads.NaNReason, BadArgument);
          out := 0;
          return;
        }
        if checkSign && isUnsigned && number.value < 0 {
          SetCustomWarning(Reads.NegativeWarning);
        }
        out := number.value;
        return;
      } else if v.Absent? || v.Nil? {
        out := default;
        index := index + 1;
        return;
      }
      out := 0;
      SetTypeError("number");
      index := index + 1;
    }

    method ReadBool() returns (out: bool)
      requires Valid()
      modifies this
      ensures Valid()
      ensures Reads.ReadBool(old(State()), frame, None) == Reads.Step(out, State())
    {
      var v := At(frame, index);
      if v.Boolean? {
        out := v.b;
        index := index + 1;
        return;
      }
      out := false;
      SetTypeError("bool");
      index := index + 1;
    }

    method ReadBoolWithDefault(default: bool) returns (out: bool)
      requires Valid()
      modifies this
      ensures Valid()
      ensures Reads.ReadBool(old(State()), frame, Some(default)) == Reads.Step(out, State())
    {
      var v := At(frame, index);
      if v.Boolean? {
        out := v.b;
        index := index + 1;
        return;
      } else if v.Absent? || v.Nil? {
        out := default;
        index := index + 1;
        return;
      }
      out := false;
      SetTypeError("bool");
      index := index + 1;
    }

    /** `default` is `None` for a null default pointer. */
    method ReadString(default: Option<CStr> := None) returns (out: string)
      requires Valid()
      modifies this
      ensures Valid()
      ensures Reads.ReadString(old(State()), frame, default) == Reads.Step(out, State())
    {
      var v := At(frame, index);
      if v.Str? || v.Number? {
        out := if v.Str? then v.s else NumberText(v.n);
        index := index + 1;
        return;
      } else if v.Absent? || v.Nil? {
        if default.Some? {
          index := index + 1;
          out := default.value;
          return;
        }
      }
      out := "";
      SetTypeError("string");
      index := index + 1;
    }

    /** ReadAnyAString for a slot without a "__tostring" metamethod;
        `address` is the host's identity for a value of another type. */
    method ReadAnyAString(address: int) returns (out: string)
      requires Valid()
      modifies this
      ensures Valid()
      ensures Reads.ReadAnyAString(old(State()), frame, address) == Reads.Step(out, State())
    {
      var v := At(frame, index);
      match v {
        case Number(n) => out := NumberText(n);
        case Str(t, _) => out := CString(t);
        case Boolean(b) => out := if b then "true" else "false";
        case Nil => out := "nil";
        case Absent =>
          out := "";
          SetTypeError("non-none");
        case _ => out := TypeName(v) + ": " + DecimalText(address);
      }
      index := index + 1;
    }

    /** InternalReadUserData. `default` is `None` when the caller has none. */
    method InternalReadUserData(allowNilResult: bool, default: Option<Ptr>) returns (out: Ptr)
      requires Valid()
      modifies this
      ensures Valid()
      ensures Reads.ReadUserData(old(State()), frame, allowNilResult, default) == Reads.Step(out, State())
    {
      out := Null;
      var v := At(frame, index);
      if v.LightUserData? {
        out := UserDataCast(v.p);
        if out != Null {
          index := index + 1;
          return;
        }
      } else if v.UserData? {
        out := UserDataCast(v.p);
        if out != Null {
          index := index + 1;
          return;
        }
      } else if v.Absent? || v.Nil? {
        out := if default.Some? then default.value else Null;
        if out != Null || allowNilResult {
          index := index + 1;
          return;
        }
      }
      out := Null;
      // The type error of this path is disabled in the source.
      index := index + 1;
    }

    method ReadUserData() returns (out: Ptr)
      requires Valid()
      modifies this
      ensures Valid()
      ensures Reads.ReadUserData(old(State()), frame, false, None) == Reads.Step(out, State())
    {
      out := InternalReadUserData(false, None);
    }

    method ReadUserDataWithDefault(default: Ptr) returns (out: Ptr)
      requires Valid()
      modifies this
      ensures Valid()
      ensures Reads.ReadUserData(old(State()), frame, false, Some(default)) == Reads.Step(out, State())
    {
      out := InternalReadUserData(false, Some(default));
    }

    /** The output is cleared, then filled with the table's numbers in
        iteration order. */
    method ReadNumberTable() returns (out: seq<Num>)
      requires Valid()
      modifies this
      ensures Valid()
      ensures Reads.ReadNumberTable(old(State()), frame) == Reads.Step(out, State())
    {
      out := [];
      var v := At(frame, index);
      if v.Table? {
        var entries := v.entries;
        var i := 0;
        while i < |entries|
          invariant 0 <= i <= |entries|
          invariant out == Reads.NumericEntries(entries[..i])
          invariant State() == old(State())
        {
          var e := entries[i];
          if e.Number? {
            out := out + [e.n];
          }
          assert entries[..i + 1] == entries[..i] + [e];
          Reads.NumericEntriesAppend(entries[..i], [e]);
          i := i + 1;
        }
        assert entries[..i] == entries;
        index := index + 1;
        return;
      }
      SetTypeError("table");
      index := index + 1;
    }

    /** ReadLuaArguments, for the cursor only: `count` is how many values
        the argument list reports it took from the frame. */
    method ReadLuaArguments(count: int)
      requires Valid()
      modifies this
      ensures Valid()
      ensures State() == old(State()).(index := old(index) + if count > 0 then count else 0)
    {
      var i := count;
      while i > 0
        invariant index == old(index) + (if count > 0 then count - i else 0)
        invariant i <= 0 ==> index == old(index) + if count > 0 then count else 0
        invariant State() == old(State()).(index := index)
      {
        index := index + 1;
        i := i - 1;
      }
    }

    /** ReadLuaArgument, for the cursor and the error record only. */
    method ReadLuaArgument()
      requires Valid()
      modifies this
      ensures Valid()
      ensures State() == Reads.ReadLuaArgument(old(State()), frame)
    {
      if TypeOf(At(frame, index)) != TNone {
        index := index + 1;
        return;
      }
      SetTypeError("argument");
      index := index + 1;
    }

    // -------------------------------------------------------------------
    // Peeks at the slot `offset` past the cursor; they change nothing
    // -------------------------------------------------------------------

    /** Whether the slot `offset` past the cursor has the type tag `t`. */
    function NextIs(t: LuaType, offset: int := 0): (r: bool)
      reads this
      ensures r <==> HasType(At(frame, index + offset), t)
    {
      t == TypeOf(At(frame, index + offset))
    }

    function NextIsNone(offset: int := 0): (r: bool)
      reads this
      ensures r <==> At(frame, index + offset).Absent?
      ensures r <==> !(1 <= index + offset <= |frame|) || frame[index + offset - 1].Absent?
    {
      NextIs(TNone, offset)
    }

    function NextIsNil(offset: int := 0): (r: bool)
      reads this
      ensures r <==> At(frame, index + offset).Nil?
    {
      NextIs(TNil, offset)
    }

    function NextIsBool(offset: int := 0): (r: bool)
      reads this
      ensures r <==> At(frame, index + offset).Boolean?
    {
      NextIs(TBoolean, offset)
    }

    /** Either kind of handle. */
    function NextIsUserData(offset: int := 0): (r: bool)
      reads this
      ensures r <==> IsUserData(At(frame, index + offset))
      ensures NextIsLightUserData(offset) ==> r
    {
      NextIs(TUserData, offset) || NextIsLightUserData(offset)
    }

    function NextIsLightUserData(offset: int := 0): (r: bool)
      reads this
      ensures r <==> At(frame, index + offset).LightUserData?
    {
      NextIs(TLightUserData, offset)
    }

    function NextIsNumber(offset: int := 0): (r: bool)
      reads this
      ensures r <==> At(frame, index + offset).Number?
    {
      NextIs(TNumber, offset)
    }

    function NextIsString(offset: int := 0): (r: bool)
      reads this
      ensures r <==> At(frame, index + offset).Str?
    {
      NextIs(TString, offset)
    }

    function NextIsTable(offset: int := 0): (r: bool)
      reads this
      ensures r <==> At(frame, index + offset).Table?
    {
      NextIs(TTable, offset)
    }

    function NextIsFunction(offset: int := 0): (r: bool)
      reads this
      ensures r <==> At(frame, index + offset).Function?
    {
      NextIs(TFunction, offset)
    }

    function NextCouldBeNumber(offset: int := 0): (r: bool)
      reads this
      ensures r <==> At(frame, index + offset).Number? || At(frame, index + offset).Str?
    {
      NextIsNumber(offset) || NextIsString(offset)
    }

    /** The same test as NextCouldBeNumber. */
    function NextCouldBeString(offset: int := 0): (r: bool)
      reads this
      ensures r == NextCouldBeNumber(offset)
    {
      NextIsNumber(offset) || NextIsString(offset)
    }

    // -------------------------------------------------------------------
    // Conditional reads: the default, without touching the cursor or the
    // error record, unless the peek matches
    // -------------------------------------------------------------------

    method ReadIfNextIsBool(default: bool) returns (out: bool)
      requires Valid()
      modifies this
      ensures Valid()
      ensures old(NextIsBool()) ==>
        Reads.ReadBool(old(State()), frame, Some(default)) == Reads.Step(out, State())
      ensures !old(NextIsBool()) ==> out == default && State() == old(State())
    {
      if NextIsBool() {
        out := ReadBoolWithDefault(default);
      } else {
        out := default;
      }
    }

    method ReadIfNextIsUserData(default: Ptr) returns (out: Ptr)
      requires Valid()
      modifies this
      ensures Valid()
      ensures old(NextIsUserData()) ==>
        Reads.ReadUserData(old(State()), frame, false, Some(default)) == Reads.Step(out, State())
      ensures !old(NextIsUserData()) ==> out == default && State() == old(State())
    {
      if NextIsUserData() {
        out := ReadUserDataWithDefault(default);
      } else {
        out := default;
      }
    }

    method ReadIfNextIsNumber(default: int, isUnsigned: bool) returns (out: int)
      requires Valid()
      modifies this
      ensures Valid()
      ensures old(NextIsNumber()) ==>
        Reads.ReadNumber(old(State()), frame, Some(default), isUnsigned, true) == Reads.Step(out, State())
      ensures !old(NextIsNumber()) ==> out == default && State() == old(State())
    {
      if NextIsNumber() {
        out := ReadNumberWithDefault(default, isUnsigned);
      } else {
        out := default;
      }
    }

    method ReadIfNextIsString(default: CStr) returns (out: string)
      requires Valid()
      modifies this
      ensures Valid()
      ensures old(NextIsString()) ==>
        Reads.ReadString(old(State()), frame, Some(default)) == Reads.Step(out, State())
      ensures !old(NextIsString()) ==> out == default && State() == old(State())
    {
      if NextIsString() {
        out := ReadString(Some(default));
      } else {
        out := default;
      }
    }

    method ReadIfNextCouldBeNumber(default: int, isUnsigned: bool) returns (out: int)
      requires Valid()
      modifies this
      ensures Valid()
      ensures old(NextCouldBeNumber()) ==>
        Reads.ReadNumber(old(State()), frame, Some(default), isUnsigned, true) == Reads.Step(out, State())
      ensures !old(NextCouldBeNumber()) ==> out == default && State() == old(State())
    {
      if NextCouldBeNumber() {
        out := ReadNumberWithDefault(default, isUnsigned);
      } else {
        out := default;
      }
    }

    method ReadIfNextCouldBeString(default: CStr) returns (out: string)
      requires Valid()
      modifies this
      ensures Valid()
      ensures old(NextCouldBeString()) ==>
        Reads.ReadString(old(State()), frame, Some(default)) == Reads.Step(out, State())
      ensures !old(NextCouldBeString()) ==> out == default && State() == old(State())
    {
      if NextCouldBeString() {
        out := ReadString(Some(default));
      } else {
        out := default;
      }
    }
  }
}
