/**
 * The Battery Status API override (pythonlib/camoufox/battery.py): keyword
 * arguments that are each left out, None, or a value are validated and gathered
 * into the payload of the `Browser.setBatteryOverride` protocol command.
 */
module Battery {
  import opened Outcomes

  /**
   * A keyword argument as the caller passes it: left out, None, a bool, an int, a
   * float, or a value of any other type. In Python a bool is also an int.
   */
  datatype Arg = Unset | NoneArg | BoolArg(b: bool) | IntArg(i: int) | FloatArg(x: real) | OtherArg

  /** A payload value: None, a bool, or a float. */
  datatype Value = Null | Flag(b: bool) | Number(x: real)

  type Payload = map<string, Value>

  /** The two kinds of override: flags take a bool, the others a number. */
  datatype Kind = FlagKind | NumberKind

  /** One keyword argument: its Python name, the payload key it fills, its kind, and the TypeError text for a wrong type. */
  datatype Field = Field(param: string, key: string, kind: Kind, message: string)

  /** The keyword arguments, in the order they are checked. */
  const Fields: seq<Field> := [
    Field("enabled", "enabled", FlagKind, "enabled must be a bool or None"),
    Field("charging", "charging", FlagKind, "charging must be a bool or None"),
    Field("level", "level", NumberKind, "level must be a float, int, or None"),
    Field("charging_time", "chargingTime", NumberKind, "charging_time must be a float, int, or None"),
    Field("discharging_time", "dischargingTime", NumberKind, "discharging_time must be a float, int, or None")
  ]

  /** Every key a payload may hold. */
  const PayloadKeys: set<string> := {"enabled", "charging", "level", "chargingTime", "dischargingTime"}

  const OverrideCommand := "Browser.setBatteryOverride"

  /** The argument passes its type check: None, or a bool for a flag, or an int or float (bools included) for a number. */
  predicate Accepts(k: Kind, a: Arg)
    ensures a.OtherArg? ==> !Accepts(k, a)
    ensures a.Unset? || a.NoneArg? || a.BoolArg? ==> Accepts(k, a)
    ensures a.IntArg? || a.FloatArg? ==> (Accepts(k, a) <==> k.NumberKind?)
  {
    match k
    case FlagKind => a.Unset? || a.NoneArg? || a.BoolArg?
    case NumberKind => a.Unset? || a.NoneArg? || a.BoolArg? || a.IntArg? || a.FloatArg?
  }

  /** The TypeError raised for a rejected argument. */
  function Rejection(f: Field): Error {
    TypeError(f.message)
  }

  /**
   * What an accepted, given argument stores: None as None, a flag as it is, a
   * number converted to float (True and False become 1.0 and 0.0).
   */
  function Stored(k: Kind, a: Arg): (v: Value)
    requires Accepts(k, a) && !a.Unset?
    ensures a.NoneArg? <==> v.Null?
    ensures k.FlagKind? && a.BoolArg? ==> v == Flag(a.b)
    ensures k.NumberKind? && !a.NoneArg? ==> v.Number?
    ensures k.NumberKind? && a.BoolArg? ==> v == Number(if a.b then 1.0 else 0.0)
    ensures a.IntArg? ==> v == Number(a.i as real)
    ensures a.FloatArg? ==> v == Number(a.x)
  {
    match a
    case NoneArg => Null
    case BoolArg(b) => if k.FlagKind? then Flag(b) else Number(if b then 1.0 else 0.0)
    case IntArg(i) => Number(i as real)
    case FloatArg(x) => Number(x)
  }

  /** One guarded insert: an unset argument adds nothing, a rejected one raises, any other adds its key. */
  function Put(m: Payload, f: Field, a: Arg): (r: Result<Payload>)
    ensures r.Ok? <==> Accepts(f.kind, a)
    ensures r.Err? ==> r.error == Rejection(f)
    ensures r.Ok? ==> r.value.Keys == m.Keys + (if a.Unset? then {} else {f.key})
    ensures r.Ok? ==> forall k :: k in m && k != f.key ==> r.value[k] == m[k]
    ensures r.Ok? && !a.Unset? ==> r.value[f.key] == Stored(f.kind, a)
  {
    if a.Unset? then Ok(m)
    else if !Accepts(f.kind, a) then Err(Rejection(f))
    else Ok(m[f.key := Stored(f.kind, a)])
  }

  /** The inserts for `fs` (one argument of `args` each) in order, starting from `m`; the first error stops them. */
  function Fill(m: Payload, fs: seq<Field>, args: seq<Arg>): (r: Result<Payload>)
    requires |fs| == |args|
    ensures r.Ok? ==> m.Keys <= r.value.Keys <= m.Keys + KeysOf(fs)
    ensures r.Err? ==> r.error.TypeError?
    decreases |fs|
  {
    if fs == [] then Ok(m)
    else match Put(m, fs[0], args[0])
      case Err(e) => Err(e)
      case Ok(m1) => Fill(m1, fs[1..], args[1..])
  }

  /** The payload the arguments describe, built from an empty dict. */
  function PayloadOf(fs: seq<Field>, args: seq<Arg>): (r: Result<Payload>)
    requires |fs| == |args|
    ensures r.Ok? ==> r.value.Keys <= KeysOf(fs)
    ensures r.Err? ==> r.error.TypeError?
  {
    Fill(map[], fs, args)
  }

  /** The payload succeeds exactly when every argument passes its type check. */
  lemma {:induction false} FillOkIffAllAccepted(m: Payload, fs: seq<Field>, args: seq<Arg>)
    requires |fs| == |args|
    ensures Fill(m, fs, args).Ok? <==> forall i :: 0 <= i < |fs| ==> Accepts(fs[i].kind, args[i])
    decreases |fs|
  {
    if fs != [] {
      if Put(m, fs[0], args[0]).Ok? {
        FillOkIffAllAccepted(Put(m, fs[0], args[0]).value, fs[1..], args[1..]);
      }
      assert forall i :: 1 <= i < |fs| ==> fs[1..][i - 1] == fs[i] && args[1..][i - 1] == args[i];
    }
  }

  /** A failure reports the first rejected argument. */
  lemma {:induction false} FillReportsFirstRejection(m: Payload, fs: seq<Field>, args: seq<Arg>, j: nat)
    requires |fs| == |args| && j < |fs|
    requires forall i :: 0 <= i < j ==> Accepts(fs[i].kind, args[i])
    requires !Accepts(fs[j].kind, args[j])
    ensures Fill(m, fs, args) == Err(Rejection(fs[j]))
    decreases |fs|
  {
    if j > 0 {
      assert forall i :: 0 <= i < j - 1 ==> fs[1..][i] == fs[i + 1] && args[1..][i] == args[i + 1];
      FillReportsFirstRejection(Put(m, fs[0], args[0]).value, fs[1..], args[1..], j - 1);
    }
  }

  /** The keys of the fields `fs`. */
  function KeysOf(fs: seq<Field>): set<string> {
    set f | f in fs :: f.key
  }

  predicate DistinctKeys(fs: seq<Field>) {
    forall i, j :: 0 <= i < j < |fs| ==> fs[i].key != fs[j].key
  }

  /** With distinct keys, the first field's key is not among the others. */
  lemma FirstKeyNotInTail(fs: seq<Field>)
    requires fs != [] && DistinctKeys(fs)
    ensures fs[0].key !in KeysOf(fs[1..])
  {
  }

  /**
   * With distinct keys not already in `m`, a successful fill keeps `m`'s entries,
   * holds the key of exactly the given arguments, each with its stored value, and
   * nothing else.
   */
  lemma {:induction false} FillEntries(m: Payload, fs: seq<Field>, args: seq<Arg>)
    requires |fs| == |args| && Fill(m, fs, args).Ok?
    requires DistinctKeys(fs) && forall i :: 0 <= i < |fs| ==> fs[i].key !in m
    ensures var r := Fill(m, fs, args).value;
            r.Keys <= m.Keys + KeysOf(fs)
            && (forall k :: k in m ==> k in r && r[k] == m[k])
            && forall i :: 0 <= i < |fs| ==>
                 (fs[i].key in r <==> !args[i].Unset?)
                 && (fs[i].key in r ==> Accepts(fs[i].kind, args[i]) && r[fs[i].key] == Stored(fs[i].kind, args[i]))
    decreases |fs|
  {
    if fs != [] {
      var fs1, args1 := fs[1..], args[1..];
      var m1 := Put(m, fs[0], args[0]).value;
      var r := Fill(m1, fs1, args1).value;
      assert Fill(m, fs, args).value == r;
      assert DistinctKeys(fs1);
      forall i | 0 <= i < |fs1| ensures fs1[i].key !in m1 {
        assert fs1[i] == fs[i + 1];
      }
      FillEntries(m1, fs1, args1);
      FirstKeyNotInTail(fs);
      assert KeysOf(fs) == {fs[0].key} + KeysOf(fs1) by {
        assert fs == [fs[0]] + fs1;
      }
      forall i | 0 <= i < |fs|
        ensures (fs[i].key in r <==> !args[i].Unset?)
                && (fs[i].key in r ==> Accepts(fs[i].kind, args[i]) && r[fs[i].key] == Stored(fs[i].kind, args[i]))
      {
        if i > 0 {
          assert fs[i] == fs1[i - 1] && args[i] == args1[i - 1];
        }
      }
    }
  }

  /** With distinct keys, the payload is empty exactly when every argument is left out. */
  lemma PayloadEmptyIffAllUnset(fs: seq<Field>, args: seq<Arg>)
    requires |fs| == |args| && PayloadOf(fs, args).Ok? && DistinctKeys(fs)
    ensures PayloadOf(fs, args).value == map[] <==> forall i :: 0 <= i < |args| ==> args[i].Unset?
  {
    FillEntries(map[], fs, args);
    var r := PayloadOf(fs, args).value;
    if forall i :: 0 <= i < |args| ==> args[i].Unset? {
      forall k | k in r ensures false { }
    }
  }

  /** The keys of the battery fields are pairwise distinct (they differ in length). */
  lemma FieldKeysDistinct()
    ensures DistinctKeys(Fields)
  {
    assert |Fields[0].key| == 7 && |Fields[1].key| == 8 && |Fields[2].key| == 5;
    assert |Fields[3].key| == 12 && |Fields[4].key| == 15;
  }

  /**
   * The battery fields: their keys are exactly the five override keys, distinct,
   * and the snake_case time arguments land under their camelCase names.
   */
  lemma BatteryFieldsKeys()
    ensures KeysOf(Fields) == PayloadKeys && DistinctKeys(Fields)
    ensures Fields[3].param == "charging_time" && Fields[3].key == "chargingTime"
    ensures Fields[4].param == "discharging_time" && Fields[4].key == "dischargingTime"
  {
    FieldKeysDistinct();
    forall k | k in PayloadKeys ensures k in KeysOf(Fields) {
      if k == "enabled" { assert Fields[0] in Fields; }
      else if k == "charging" { assert Fields[1] in Fields; }
      else if k == "level" { assert Fields[2] in Fields; }
      else if k == "chargingTime" { assert Fields[3] in Fields; }
      else { assert Fields[4] in Fields; }
    }
  }


  /**
   * What `_build_payload` promises: success exactly when every argument passes its
   * check, and then one entry per given argument under its payload key, holding the
   * stored value, and no key outside the five override keys.
   */
  lemma BatteryPayload(args: seq<Arg>)
    requires |args| == |Fields|
    ensures PayloadOf(Fields, args).Ok? <==> forall i :: 0 <= i < 5 ==> Accepts(Fields[i].kind, args[i])
    ensures PayloadOf(Fields, args).Ok? ==>
              var r := PayloadOf(Fields, args).value;
              r.Keys <= PayloadKeys
              && (r == map[] <==> forall i :: 0 <= i < 5 ==> args[i].Unset?)
              && forall i :: 0 <= i < 5 ==>
                   (Fields[i].key in r <==> !args[i].Unset?)
                   && (Fields[i].key in r ==> Accepts(Fields[i].kind, args[i]) && r[Fields[i].key] == Stored(Fields[i].kind, args[i]))
  {
    FillOkIffAllAccepted(map[], Fields, args);
    BatteryFieldsKeys();
    if PayloadOf(Fields, args).Ok? {
      FillEntries(map[], Fields, args);
      PayloadEmptyIffAllUnset(Fields, args);
    }
  }

  /** The guarded insert of `enabled` and `charging`: None or a bool, stored as given. */
  method PutFlag(payload: Payload, f: Field, a: Arg) returns (r: Result<Payload>)
    requires f.kind.FlagKind?
    ensures r == Put(payload, f, a)
  {
    if a.Unset? {
      return Ok(payload);
    }
    if !a.NoneArg? && !a.BoolArg? {
      return Err(TypeError(f.message));
    }
    return Ok(payload[f.key := Stored(f.kind, a)]);
  }

  /** The guarded insert of `level` and the two times: None, or an int or float stored as float. */
  method PutNumber(payload: Payload, f: Field, a: Arg) returns (r: Result<Payload>)
    requires f.kind.NumberKind?
    ensures r == Put(payload, f, a)
  {
    if a.Unset? {
      return Ok(payload);
    }
    if a.NoneArg? {
      return Ok(payload[f.key := Null]);
    } else if a.BoolArg? || a.IntArg? || a.FloatArg? {
      return Ok(payload[f.key := Stored(f.kind, a)]);
    } else {
      return Err(TypeError(f.message));
    }
  }

  /** The next guarded insert, unless an earlier one raised. */
  function Then(r: Result<Payload>, f: Field, a: Arg): Result<Payload> {
    if r.Err? then r else Put(r.value, f, a)
  }

  /** The remaining inserts after `r`, unless `r` already raised. */
  function Resume(r: Result<Payload>, fs: seq<Field>, args: seq<Arg>): Result<Payload>
    requires |fs| == |args|
  {
    if r.Err? then r else Fill(r.value, fs, args)
  }

  lemma ResumeStep(r: Result<Payload>, fs: seq<Field>, args: seq<Arg>)
    requires |fs| == |args| && fs != []
    ensures Resume(r, fs, args) == Resume(Then(r, fs[0], args[0]), fs[1..], args[1..])
  {
  }

  /** Five inserts in a row, spelled out one by one. */
  lemma FillFive(m: Payload, fs: seq<Field>, args: seq<Arg>)
    requires |fs| == 5 && |args| == 5
    ensures Fill(m, fs, args)
            == Then(Then(Then(Then(Put(m, fs[0], args[0]), fs[1], args[1]), fs[2], args[2]), fs[3], args[3]), fs[4], args[4])
  {
    var r0: Result<Payload> := Ok(m);
    ResumeStep(r0, fs, args);
    var r1 := Then(r0, fs[0], args[0]);
    ResumeStep(r1, fs[1..], args[1..]);
    assert fs[1..][1..] == fs[2..] && args[1..][1..] == args[2..];
    var r2 := Then(r1, fs[1], args[1]);
    ResumeStep(r2, fs[2..], args[2..]);
    assert fs[2..][1..] == fs[3..] && args[2..][1..] == args[3..];
    var r3 := Then(r2, fs[2], args[2]);
    ResumeStep(r3, fs[3..], args[3..]);
    assert fs[3..][1..] == fs[4..] && args[3..][1..] == args[4..];
    var r4 := Then(r3, fs[3], args[3]);
    ResumeStep(r4, fs[4..], args[4..]);
    assert fs[4..][1..] == [] && args[4..][1..] == [];
  }

  /** `_build_payload`: the five checks in order, each adding its key only when the argument is given. */
  method BuildPayload(enabled: Arg, charging: Arg, level: Arg, chargingTime: Arg, dischargingTime: Arg)
    returns (r: Result<Payload>)
    ensures r == PayloadOf(Fields, [enabled, charging, level, chargingTime, dischargingTime])
  {
    FillFive(map[], Fields, [enabled, charging, level, chargingTime, dischargingTime]);
    var payload: Payload := map[];
    r := PutFlag(payload, Fields[0], enabled);
    if r.Err? {
      return;
    }
    payload := r.value;
    r := PutFlag(payload, Fields[1], charging);
    if r.Err? {
      return;
    }
    payload := r.value;
    r := PutNumber(payload, Fields[2], level);
    if r.Err? {
      return;
    }
    payload := r.value;
    r := PutNumber(payload, Fields[3], chargingTime);
    if r.Err? {
      return;
    }
    payload := r.value;
    r := PutNumber(payload, Fields[4], dischargingTime);
  }

  /** A protocol message: the command and its parameters, if any. */
  datatype Message = Message(command: string, params: Option<Payload>)

  const NoChannel := TypeError("Cannot resolve browser channel from target; expected a Browser or BrowserContext")

  /**
   * `set_battery`: the payload is built (and validated) before the browser channel
   * is looked up; an empty payload sends the command without parameters, which
   * clears every override. `channelFound` says whether the target resolves to a
   * channel; the result is the message sent, or the error raised instead.
   */
  method SetBattery(channelFound: bool, enabled: Arg, charging: Arg, level: Arg,
                    chargingTime: Arg, dischargingTime: Arg) returns (r: Result<Message>)
    ensures var p := PayloadOf(Fields, [enabled, charging, level, chargingTime, dischargingTime]);
            if p.Err? then r == Err(p.error)
            else if !channelFound then r == Err(NoChannel)
            else r == Ok(Message(OverrideCommand, if p.value == map[] then None else Some(p.value)))
  {
    var payload := BuildPayload(enabled, charging, level, chargingTime, dischargingTime);
    if payload.Err? {
      return Err(payload.error);
    }
    if !channelFound {
      return Err(NoChannel);
    }
    if payload.value != map[] {
      return Ok(Message(OverrideCommand, Some(payload.value)));
    }
    return Ok(Message(OverrideCommand, None));
  }

  /** Calling with every argument left out sends the bare command, clearing all overrides. */
  lemma NoArgumentsClearsOverrides()
    ensures PayloadOf(Fields, [Unset, Unset, Unset, Unset, Unset]) == Ok(map[])
  {
    BatteryPayload([Unset, Unset, Unset, Unset, Unset]);
  }
}
