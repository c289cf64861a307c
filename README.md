# Script argument reader: a verified model

This project models `CScriptArgReader`, the argument cursor that the native
functions of a Lua host module build over a Lua call frame. A native function
constructs one reader, calls a typed `Read*` method per declared parameter, and
checks `HasErrors` once. Each read coerces the slot under the cursor into a
native value. It always writes some output and always moves the cursor on by
one slot, success or failure. It records at most one error, following a fixed
precedence rule: a type error keeps the left-most failing argument, and a custom
error is only written into a clean record.

The model has four modules:

- `Lua` (lua.dfy): the host runtime's side. It defines the frame as a `seq<Slot>`
  of tagged values read at 1-based indices, with `Absent` (LUA_TNONE) outside
  `1..|frame|`. It also defines `lua_type` (stated against `HasType`, the meaning
  of each type tag), `lua_isnumber` and `lua_tonumber`, the type names, and the
  runtime's text for numbers. Coroutines are the `Thread` slot. A number is `NaN` or an
  integer. A string slot carries the numeric parser's result for it. The handle
  cast `UserDataCast` (src/Casts.h:15-19) is the identity.
- `Errors` (errors.dfy): the error record, the two rules that write it
  (`SetTypeError`, `SetCustomError`) as functions, and lemmas about sequences of
  failures.
- `Reads` (reads.dfy): every read, `HasErrors` and `ReadLuaArgument` as one pure
  step `(old state, frame, arguments) -> (output, new state)`. This is the
  specification. It also holds lemmas about a whole parameter list read left to
  right.
- `Reader` (reader.dfy): the class `ScriptArgReader`, which has the source's
  fields (cursor, error flag, error index, expected type, category,
  custom-message flag, custom message, custom warning). Its methods update those
  fields step by step the way the source does. For every typed read, `HasErrors`
  and `ReadLuaArgument`, the `ensures` states that the output and new state are
  exactly the `Reads` step applied to the old state. `SetTypeError` and
  `SetCustomError` are stated through the rules in `Errors`. `SetCustomWarning`,
  `Skip` and `ReadLuaArguments` are stated as direct updates of the old state.
  A `ReadIfNext*` method is the `Reads` step when its peek matches; otherwise it
  returns the default and leaves the state unchanged. `Valid()` is the object
  invariant: with no error flagged, the error record is the fresh one.
  `SetCustomError` relies on it to leave index 0 on a clean reader, and
  `HasErrors` relies on it to report a clean record whenever it answers false.
  The `NextIs*` peeks are functions, so they cannot change state.

C++ overloads get distinct names: `ReadNumber` / `ReadNumberWithDefault`,
`ReadBool` / `ReadBoolWithDefault`, `ReadUserData` / `ReadUserDataWithDefault`.
In the pure steps, a default is an `Option`, and `None` stands for the overload
without one. The template parameter's signedness is the flag `isUnsigned`. The
source's `NextIString` and `ReadIfNextIString` are `NextIsString` and
`ReadIfNextIsString` here.

Where the doc comments and the code disagree, the model follows the code:

- `InternalReadUserData` never records an error, because its `SetTypeError` call
  is commented out (src/extra/CScriptArgReader.h:458). The doc comments at
  :463-468 and :477-483 say otherwise. So reading (number, string with default,
  handle) from `[42, nil, true]` ends with no error recorded
  (`Reads.NumberStringHandleScenario`). The `bAllowNilResult` flag makes no
  observable difference either.
- `HasErrors(true)` returns true when an argument is left at the cursor. It does
  not set the error flag, and it does not drop the warning.
- The log call in `HasErrors` is commented out. A pending warning is therefore
  cleared when there is no error, and it is never emitted.
- A custom error leaves the error index at 0, so no type error at a positive
  index displaces it. A type error at index 0 or below would, and it would not
  clear the custom-message flag. Such an index is reachable through `Skip` with a
  negative count, and through the public `SetTypeError` with an explicit index
  such as 0 (src/extra/CScriptArgReader.h:897).
- `ReadString` copies a string with its explicit length, so the whole text is
  kept. `ReadAnyAString` copies it as a C string, so the text stops at the first
  NUL (`Lua.CString`).

## Model

| member | source | states |
|---|---|---|
| `Errors.TypeError` | src/extra/CScriptArgReader.h:897-909 | Always leaves an error flagged. The recorded index becomes the minimum of the old and new index when an error exists, and the new index otherwise. The record is unchanged when an earlier error exists. Otherwise the expected type is replaced, an equal index included, and the category becomes "Bad argument". The custom-message part is kept. It preserves the clean-when-unflagged invariant. |
| `Errors.CustomError` | src/extra/CScriptArgReader.h:995-1004 | Writes reason, category and the custom-message flag only into a record with no error, and leaves the index and expected type as they were. A record that already has an error is returned unchanged. |
| `Errors.LeftmostFailureReported` | src/extra/CScriptArgReader.h:897-909 | After any sequence of type errors on a fresh record, the recorded index is the minimum over all failures. The expected type comes from the last failure at that minimum, and the category is "Bad argument". |
| `Errors.LaterFailuresKeepError` | src/extra/CScriptArgReader.h:901 | A recorded error is never changed by type errors that are all at later indices. |
| `Errors.CustomErrorNeverDisplaced` | src/extra/CScriptArgReader.h:995-1004 | A custom error set on a fresh record keeps index 0, so no sequence of type errors at positive indices changes it. |
| `Lua.At` | src/extra/CScriptArgReader.h:771 | The slot at index i is the (i-1)-th frame value for 1 <= i <= the frame's length, and `Absent` for every other index. |
| `Lua.TypeOf` | src/extra/CScriptArgReader.h:771 | The tag `lua_type` returns is the one and only tag whose meaning (`HasType`) the slot satisfies. |
| `Lua.IsNumber` | src/extra/CScriptArgReader.h:51 | A number slot is numeric. A string slot is numeric exactly when the runtime's parser accepts it. No slot of another type is numeric. |
| `Lua.TypeName` | src/extra/CScriptArgReader.h:249 | The type name is non-empty and has no NUL. It is "userdata" exactly for either kind of handle, and "no value" exactly for an absent slot. |
| `Lua.TypeNameDistinguishesTypes` | src/extra/CScriptArgReader.h:249 | Two slots get the same type name exactly when they have the same type tag or are both handles. |
| `Lua.UserDataCast` | src/Casts.h:15-19 | The cast keeps a null pointer null and turns no other pointer into null. |
| `Lua.DecimalText` | src/extra/CScriptArgReader.h:249 | The decimal text of an integer is non-empty and has no NUL. It starts with '-' exactly when the integer is negative, and every other character is a digit. |
| `Lua.ToNumber` | src/extra/CScriptArgReader.h:56-57 | A slot that is neither a number nor a parseable string converts to 0. A number slot converts to its own value. |
| `Lua.CString` | src/extra/CScriptArgReader.h:236 | A `const char*` copy of a string is a prefix of it. It is the whole string when the string has no NUL, and otherwise it stops at the first NUL. |
| `Lua.DecimalRoundTrip` | src/extra/CScriptArgReader.h:249 | The decimal text written for an integer parses back to that integer. |
| `Lua.NumberText` | src/extra/CScriptArgReader.h:183 | The runtime's text for a finite number contains no NUL and parses back to the number. |
| `Reads.ReadNumber` | src/extra/CScriptArgReader.h:44-128 | Advances by one on every path. An unparseable string gives 0, the non-convertible warning and no error. A NaN gives 0 and the custom error "Expected number, got NaN" in category "Bad argument", with or without a default. Another number gives its value, plus the sign warning for a negative value when the target is unsigned and the sign is checked. Nil or none with a default gives exactly the default and leaves the error and warning as they were. Anything else gives 0 and a type error "number" at the slot's index. |
| `Reads.ReadBool` | src/extra/CScriptArgReader.h:133-168 | Advances by one and keeps the warning. A boolean gives its value. Nil or none with a default gives the default without an error. Anything else gives false and a type error "bool" at the slot's index. |
| `Reads.ReadString` | src/extra/CScriptArgReader.h:173-214 | Advances by one and keeps the warning. A string gives its whole text, and a number gives the runtime's text for it. Nil or none with a non-null default gives the default. Anything else, a null default included, gives "" and a type error "string" at the slot's index. |
| `Reads.ReadAnyAString` | src/extra/CScriptArgReader.h:232-253 | Always advances by one. Numbers and strings give their text (strings cut at the first NUL), booleans give "true" or "false", and nil gives "nil". Other types (tables, functions, handles, threads) give their type name, ": " and the host address. Only an absent slot records an error ("non-none" at its index), and its output is "". |
| `Reads.ReadUserData` | src/extra/CScriptArgReader.h:420-460 | The new state is the old one with the cursor advanced by one: never an error, never a warning change. A (light) userdata gives its cast pointer. Nil or none gives the default when there is one and null otherwise. Every other slot gives null. |
| `Reads.NumericEntries` | src/extra/CScriptArgReader.h:666-673 | The collected list is no longer than the table, and a value is in it exactly when a number slot with that value is among the table's values. |
| `Reads.NumericEntriesAppend` | src/extra/CScriptArgReader.h:666-673 | Collecting over two consecutive runs of entries is collecting over each and concatenating, so the order of the table is kept. |
| `Reads.AllNumbersKept` | src/extra/CScriptArgReader.h:666-673 | A table holding only numbers yields every one of them, in iteration order. |
| `Reads.ReadNumberTable` | src/extra/CScriptArgReader.h:660-679 | Advances by one. A table gives exactly its numeric values in iteration order, with no error. Any other slot gives an empty list and a type error "table" at its index. |
| `Reads.ReadLuaArgument` | src/extra/CScriptArgReader.h:543-554 | Advances by one. Only an absent slot records a type error "argument" at its index. |
| `Reads.HasErrors` | src/extra/CScriptArgReader.h:914-933 | With trailing-argument checking and a slot left at the cursor, it answers true and changes nothing. Otherwise it answers the error flag, keeps the warning when an error is flagged, and clears it when none is. |
| `Reads.ReadParamsAdvance` | src/CFunctions.cpp:99-107 | Reading a parameter list moves the cursor by exactly the number of parameters, whatever the slots hold. |
| `Reads.LaterReadsKeepError` | src/extra/CScriptArgReader.h:897-909 | Once an error is recorded at an index before the cursor, no later read changes the error record. This covers every read a parameter can use: number, bool, string, handle, any-string, number table and Lua argument. |
| `Reads.FirstMismatchReported` | src/extra/CScriptArgReader.h:897-909 | Reading a parameter list from a reader with no error, where no NaN comes earlier, records the first parameter whose slot does not fit. The record gives that slot's index, the parameter's expected type name and "Bad argument". |
| `Reads.NumberStringHandleScenario` | src/extra/CScriptArgReader.h:420-460 | Reading (number, string with default "x", handle) from [42, nil, true] gives 42, "x" and null, and leaves the cursor at 4 with no error and no warning. |
| `Reader.ScriptArgReader.constructor` | src/extra/CScriptArgReader.h:25-35 | A fresh reader over the given frame: cursor 1, error index 0, no error, empty strings. |
| `Reader.ScriptArgReader.SetTypeError` | src/extra/CScriptArgReader.h:897-909 | Updates the error fields as `Errors.TypeError` at the given index, or at the cursor for -1. Nothing else changes. |
| `Reader.ScriptArgReader.SetCustomError` | src/extra/CScriptArgReader.h:995-1004 | Updates the error fields as `Errors.CustomError`, with category "Bad usage" by default. Nothing else changes. On a reader without an error, the record becomes the custom error of a fresh record, at index 0. |
| `Reader.ScriptArgReader.SetCustomWarning` | src/extra/CScriptArgReader.h:1014 | Replaces the warning (last write wins). Nothing else changes. |
| `Reader.ScriptArgReader.HasErrors` | src/extra/CScriptArgReader.h:914-933 | The answer and the new fields are those of `Reads.HasErrors`. When the answer is false, the error record is the fresh one. |
| `Reader.ScriptArgReader.Skip` | src/extra/CScriptArgReader.h:1019 | Moves the cursor by n. Nothing else changes. |
| `Reader.ScriptArgReader.ReadNumber` | src/extra/CScriptArgReader.h:44-83 | Output and new fields are `Reads.ReadNumber` without a default. |
| `Reader.ScriptArgReader.ReadNumberWithDefault` | src/extra/CScriptArgReader.h:88-128 | Output and new fields are `Reads.ReadNumber` with the default. |
| `Reader.ScriptArgReader.ReadBool` | src/extra/CScriptArgReader.h:133-145 | Output and new fields are `Reads.ReadBool` without a default. |
| `Reader.ScriptArgReader.ReadBoolWithDefault` | src/extra/CScriptArgReader.h:150-168 | Output and new fields are `Reads.ReadBool` with the default. |
| `Reader.ScriptArgReader.ReadString` | src/extra/CScriptArgReader.h:173-214 | Output and new fields are `Reads.ReadString`. |
| `Reader.ScriptArgReader.ReadAnyAString` | src/extra/CScriptArgReader.h:232-253 | Output and new fields are `Reads.ReadAnyAString`. |
| `Reader.ScriptArgReader.InternalReadUserData` | src/extra/CScriptArgReader.h:419-460 | Output and new fields are `Reads.ReadUserData`. |
| `Reader.ScriptArgReader.ReadUserData` | src/extra/CScriptArgReader.h:471-475 | Output and new fields are `Reads.ReadUserData` with nil not allowed and no default. |
| `Reader.ScriptArgReader.ReadUserDataWithDefault` | src/extra/CScriptArgReader.h:485-489 | Output and new fields are `Reads.ReadUserData` with the default. |
| `Reader.ScriptArgReader.ReadNumberTable` | src/extra/CScriptArgReader.h:660-679 | The loop that clears and appends yields `Reads.ReadNumberTable`'s output and new fields. |
| `Reader.ScriptArgReader.ReadLuaArguments` | src/extra/CScriptArgReader.h:531-538 | Moves the cursor by the reported count when it is positive, and not at all otherwise. Nothing else changes. |
| `Reader.ScriptArgReader.ReadLuaArgument` | src/extra/CScriptArgReader.h:543-554 | The new fields are `Reads.ReadLuaArgument`. |
| `Reader.ScriptArgReader.NextIs` | src/extra/CScriptArgReader.h:771 | True exactly when the slot at cursor + offset has the given type tag, in the sense of `HasType`. |
| `Reader.ScriptArgReader.NextIsNone` | src/extra/CScriptArgReader.h:772 | True exactly when the slot at cursor + offset is absent. The model counts every index outside 1..(frame length) as absent, negative ones included (see "Left out"). |
| `Reader.ScriptArgReader.NextIsNil` | src/extra/CScriptArgReader.h:773 | True exactly when that slot is nil. |
| `Reader.ScriptArgReader.NextIsBool` | src/extra/CScriptArgReader.h:774 | True exactly when that slot is a boolean. |
| `Reader.ScriptArgReader.NextIsUserData` | src/extra/CScriptArgReader.h:775 | True exactly when that slot is a full or a light userdata. |
| `Reader.ScriptArgReader.NextIsLightUserData` | src/extra/CScriptArgReader.h:776 | True exactly when that slot is a light userdata. |
| `Reader.ScriptArgReader.NextIsNumber` | src/extra/CScriptArgReader.h:777 | True exactly when that slot is a number (not a numeric string). |
| `Reader.ScriptArgReader.NextIsString` | src/extra/CScriptArgReader.h:778 | True exactly when that slot is a string. |
| `Reader.ScriptArgReader.NextIsTable` | src/extra/CScriptArgReader.h:779 | True exactly when that slot is a table. |
| `Reader.ScriptArgReader.NextIsFunction` | src/extra/CScriptArgReader.h:780 | True exactly when that slot is a function. |
| `Reader.ScriptArgReader.NextCouldBeNumber` | src/extra/CScriptArgReader.h:781 | True exactly when that slot is a number or a string. |
| `Reader.ScriptArgReader.NextCouldBeString` | src/extra/CScriptArgReader.h:782 | The same predicate as `NextCouldBeNumber`. |
| `Reader.ScriptArgReader.ReadIfNextIsBool` | src/extra/CScriptArgReader.h:834-840 | When the peek matches, it acts as `Reads.ReadBool` with the default. When it does not, the output is the default and the cursor, error record and warning are unchanged. |
| `Reader.ScriptArgReader.ReadIfNextIsUserData` | src/extra/CScriptArgReader.h:842-849 | The same shape for `Reads.ReadUserData` with the default. |
| `Reader.ScriptArgReader.ReadIfNextIsNumber` | src/extra/CScriptArgReader.h:851-858 | The same shape for `Reads.ReadNumber` with the default. A numeric string does not match the peek. |
| `Reader.ScriptArgReader.ReadIfNextIsString` | src/extra/CScriptArgReader.h:860-866 | The same shape for `Reads.ReadString` with the default. |
| `Reader.ScriptArgReader.ReadIfNextCouldBeNumber` | src/extra/CScriptArgReader.h:877-884 | The same shape for `Reads.ReadNumber` with the default, under the number-or-string peek. |
| `Reader.ScriptArgReader.ReadIfNextCouldBeString` | src/extra/CScriptArgReader.h:886-892 | The same shape for `Reads.ReadString` with the default, under the number-or-string peek. |

## Left out

- Negative and zero indices: `Lua.At` reads every index outside 1..(frame length) as `Absent`. The runtime does not. For -1 down to minus the frame length, `lua_type` counts from the top of the stack, so -1 is the last argument. Index 0, indices further down and the pseudo-indices are unchecked or special in the runtime. So for a cursor plus offset at or below 0, which `Skip` with a negative count or a negative peek offset can reach, the model's peeks and reads do not say what the source does.
- `Lua.UserDataCast`: the contract states only that null stays null and that nothing else becomes null. The cast is a plain `reinterpret_cast`, so the address is kept unchanged, and the body says so.

- The `__tostring` metamethod branch of `ReadAnyAString` (src/extra/CScriptArgReader.h:221-230): it calls back into Lua. The model covers slots without such a metamethod.
- The text of the last `ReadAnyAString` case (:249): the host address of the value is a parameter. Only its decimal formatting and the type-name prefix are modelled.
- Floating point: numbers are NaN or integers. Not modelled: the `static_cast` narrowing to the target type, the signed 64-bit intermediate for unsigned targets (:72), and the `float` cast in `ReadNumberTable` (:671). Over integers, the `-FLT_EPSILON` sign threshold (:68, :110) is exactly "below zero".
- `Lua.NumberText`: writes a finite number as its plain decimal integer and NaN as "nan". The runtime's `%.14g` exponent form for magnitudes of 10^14 and above is not modelled, and neither is a platform's "-nan".
- The numeric parse of a string (`lua_isnumber`, `lua_tonumber`) is host-runtime behaviour. Each string slot carries the parse result as data.
- The `bad_alloc` handlers of `ReadString` (:185-188, :202-205): memory exhaustion is not modelled.
- `ReadLuaArguments` and `ReadLuaArgument` (:531-554): the argument-list class is not part of this model. Only the cursor and error arithmetic is kept. The count the argument list reports is a parameter, and no argument value is produced.
- The in-place number-to-string conversion that `lua_tostring` performs on a frame slot: the frame is immutable in the model.
- `Reader.ScriptArgReader.ReadIfNextIsString`: the fallback branch assigns the `const char*` default directly, and that is undefined for a null pointer. The model takes only non-null C-string defaults (`CStr`), here and in `ReadIfNextCouldBeString`.
- Fields used only by disabled code: `m_pPendingFunctionIndex`, `m_bResolvedErrorGotArgumentTypeAndValue` and the observed type and value strings. They are also never changed by the live code (the flag stays false and the index stays -1). `IsReadFunctionPending` is therefore always false and is not modelled.
- All commented-out code: enum reads, `ReadFunction`, the handle, string and argument tables, string maps, `GetErrorMessage` and its lazy resolution. `ReadIfNextIsEnumString` (:868-875) calls functions that do not exist.
- `GetClassTypeName` (src/Casts.h:7-10) is only a name for the disabled handle type error.
- src/CFunctions.cpp, src/ml_redis.cpp and src/CFunctions.h: network calls, Lua stack pushes and module registration are I/O and glue, not part of this model.
