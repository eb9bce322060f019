/** The base channel structure (Channel.js): the type table searches `isType` and
    `friendlyType`, the `mention` string and the `toJSON` key filter that every channel
    structure extends. The type table (`channelTypes` in Constants) is a parameter: a
    sequence of entries in the order a `for … in` loop visits its keys. */
module Channels {
  import opened Wrappers

  /** One entry of the type table: the key (such as `GUILD_TEXT`), `API_TYPE` and `FRIENDLY_TYPE`. */
  datatype ChannelTypeEntry = ChannelTypeEntry(key: string, apiType: int, friendlyType: string)

  /** The JavaScript values `isType` can be handed, as far as it distinguishes them: strings,
      finite numbers, NaN, and the values of every other `typeof` class. */
  datatype JsValue = JsString(s: string) | JsNumber(n: real) | JsNaN | JsOther(kind: OtherKind)

  datatype OtherKind = Undefined | Boolean | Object | BigInt | Symbol | Function

  /** What `typeof` answers. */
  function TypeOf(v: JsValue): string {
    match v
    case JsString(_) => "string"
    case JsNumber(_) => "number"
    case JsNaN => "number"
    case JsOther(Undefined) => "undefined"
    case JsOther(Boolean) => "boolean"
    case JsOther(Object) => "object"
    case JsOther(BigInt) => "bigint"
    case JsOther(Symbol) => "symbol"
    case JsOther(Function) => "function"
  }

  const TypeErrorPrefix: string :=
    "Expected parameter \"type\" to be of either type \"string\" or type \"number\", received type \""

  /** `type === key || type === API_TYPE || type === FRIENDLY_TYPE`: strict equality never
      relates a string and a number. */
  predicate Matches(e: ChannelTypeEntry, v: JsValue) {
    match v
    case JsString(s) => s == e.key || s == e.friendlyType
    case JsNumber(n) => n == e.apiType as real
    case _ => false
  }

  /** The early-return search of `isType` over the table. */
  function FindType(table: seq<ChannelTypeEntry>, v: JsValue): (found: bool)
    ensures found <==> exists i :: 0 <= i < |table| && Matches(table[i], v)
  {
    if table == [] then false
    else if Matches(table[0], v) then true
    else
      assert forall i :: 1 <= i < |table| ==> table[i] == table[1..][i - 1];
      FindType(table[1..], v)
  }

  /** `isType(type)` on a channel whose own type is `channelType`, exactly as written:
      arguments that are neither strings nor numbers, and NaN, are rejected with the
      error message; any other argument is looked up in the table. `channelType` is
      never read. */
  function IsType(table: seq<ChannelTypeEntry>, channelType: Option<int>, v: JsValue): (r: Result<bool, string>)
    ensures r.Failure? <==> !(v.JsString? || v.JsNumber?)
    ensures r.Failure? ==> r.error == TypeErrorPrefix + (if v.JsNaN? then "NaN" else TypeOf(v)) + "\""
    ensures r.Success? ==> (r.value <==> exists i :: 0 <= i < |table| && Matches(table[i], v))
  {
    if !(v.JsString? || v.JsNumber?) then
      Failure(TypeErrorPrefix + (if TypeOf(v) == "number" then "NaN" else TypeOf(v)) + "\"")
    else
      Success(FindType(table, v))
  }

  /** The answer of `isType` does not depend on the channel it is asked of. */
  lemma IsTypeIgnoresChannel(table: seq<ChannelTypeEntry>, t1: Option<int>, t2: Option<int>, v: JsValue)
    ensures IsType(table, t1, v) == IsType(table, t2, v)
  {
  }

  /** A text channel answers true when asked whether it is a voice channel. */
  lemma IsTypeCounterexample()
    ensures IsType([ChannelTypeEntry("GUILD_TEXT", 0, "text"), ChannelTypeEntry("GUILD_VOICE", 2, "voice")],
                   Some(0), JsString("GUILD_VOICE")) == Success(true)
  {
    var table := [ChannelTypeEntry("GUILD_TEXT", 0, "text"), ChannelTypeEntry("GUILD_VOICE", 2, "voice")];
    assert Matches(table[1], JsString("GUILD_VOICE"));
  }

  /** `isType` as its documentation describes it: the argument is checked in the same way,
      and the answer is whether it names the channel's own type. */
  function IsTypeOf(table: seq<ChannelTypeEntry>, channelType: Option<int>, v: JsValue): (r: Result<bool, string>)
    ensures r.Failure? <==> !(v.JsString? || v.JsNumber?)
    ensures r.Failure? ==> r == IsType(table, channelType, v)
    ensures r.Success? ==>
              (r.value <==> exists i :: 0 <= i < |table| && Matches(table[i], v) && Some(table[i].apiType) == channelType)
  {
    if !(v.JsString? || v.JsNumber?) then IsType(table, channelType, v)
    else Success(FindOwnType(table, channelType, v))
  }

  function FindOwnType(table: seq<ChannelTypeEntry>, channelType: Option<int>, v: JsValue): (found: bool)
    ensures found <==> exists i :: 0 <= i < |table| && Matches(table[i], v) && Some(table[i].apiType) == channelType
  {
    if table == [] then false
    else if Matches(table[0], v) && Some(table[0].apiType) == channelType then true
    else
      assert forall i :: 1 <= i < |table| ==> table[i] == table[1..][i - 1];
      FindOwnType(table[1..], channelType, v)
  }

  /** Asked with a number, the corrected check holds exactly of the channel's own type,
      provided the table lists that type. */
  lemma IsTypeOfNumber(table: seq<ChannelTypeEntry>, channelType: int, n: int)
    requires exists i :: 0 <= i < |table| && table[i].apiType == channelType
    ensures IsTypeOf(table, Some(channelType), JsNumber(n as real)) == Success(n == channelType)
  {
    var i :| 0 <= i < |table| && table[i].apiType == channelType;
    if n == channelType {
      assert Matches(table[i], JsNumber(n as real));
    }
  }

  /** The corrected check answers true only where the one as written does. */
  lemma IsTypeOfImpliesIsType(table: seq<ChannelTypeEntry>, channelType: Option<int>, v: JsValue)
    requires IsTypeOf(table, channelType, v) == Success(true)
    ensures IsType(table, channelType, v) == Success(true)
  {
  }

  /** The getter `friendlyType` of a channel of type `channelType`: the early-return search
      for the first entry whose API_TYPE equals it. */
  function FriendlyType(table: seq<ChannelTypeEntry>, channelType: Option<int>): string
  {
    if table == [] then UnknownChannelType
    else if Some(table[0].apiType) == channelType then table[0].friendlyType
    else FriendlyType(table[1..], channelType)
  }

  /** The FRIENDLY_TYPE of the first entry whose API_TYPE equals the channel's type is returned. */
  lemma {:induction false} FriendlyTypeFirstMatch(table: seq<ChannelTypeEntry>, channelType: Option<int>, i: int)
    requires 0 <= i < |table| && Some(table[i].apiType) == channelType
    requires forall j :: 0 <= j < i ==> Some(table[j].apiType) != channelType
    ensures FriendlyType(table, channelType) == table[i].friendlyType
  {
    if i > 0 {
      assert forall j :: 0 <= j < i - 1 ==> table[1..][j] == table[j + 1];
      FriendlyTypeFirstMatch(table[1..], channelType, i - 1);
    }
  }

  /** Without a matching entry the answer is 'unknown channel type'; the getter never throws. */
  lemma {:induction false} FriendlyTypeNoMatch(table: seq<ChannelTypeEntry>, channelType: Option<int>)
    requires forall i :: 0 <= i < |table| ==> Some(table[i].apiType) != channelType
    ensures FriendlyType(table, channelType) == UnknownChannelType
  {
    if table != [] {
      assert forall j :: 0 <= j < |table| - 1 ==> table[1..][j] == table[j + 1];
      FriendlyTypeNoMatch(table[1..], channelType);
    }
  }

  const UnknownChannelType: string := "unknown channel type"

  /** A channel type that appears in the table is never reported as unknown, provided no
      entry uses the string 'unknown channel type' as its FRIENDLY_TYPE. */
  lemma {:induction false} FriendlyTypeKnown(table: seq<ChannelTypeEntry>, channelType: int)
    requires exists i :: 0 <= i < |table| && table[i].apiType == channelType
    requires forall i :: 0 <= i < |table| ==> table[i].friendlyType != UnknownChannelType
    ensures FriendlyType(table, Some(channelType)) != UnknownChannelType
  {
    var i :| 0 <= i < |table| && table[i].apiType == channelType;
    if table[0].apiType != channelType {
      assert forall j :: 0 <= j < |table| - 1 ==> table[1..][j] == table[j + 1];
      assert table[1..][i - 1].apiType == channelType;
      FriendlyTypeKnown(table[1..], channelType);
    }
  }

  /** A channel whose type is undefined has the unknown type. */
  lemma FriendlyTypeUndefined(table: seq<ChannelTypeEntry>)
    ensures FriendlyType(table, None) == UnknownChannelType
  {
    FriendlyTypeNoMatch(table, None);
  }

  /** The getter `mention`: `<#id>`, from which the id can be read back. */
  function Mention(id: string): (m: string)
    ensures |m| == |id| + 3 && m[..2] == "<#" && m[|m| - 1] == '>'
    ensures m[2..|m| - 1] == id
  {
    var m := "<#" + id + ">";
    assert forall k :: 0 <= k < |id| ==> m[2..|m| - 1][k] == id[k];
    m
  }

  /** Distinct channels have distinct mentions. */
  lemma MentionInjective(a: string, b: string)
    requires Mention(a) == Mention(b)
    ensures a == b
  {
  }

  /** A JSON value as `toJSON` emits it; `JNested` stands for the output of a nested
      object's own `toJSON`, which is not part of this model. */
  datatype JsonValue = JNull | JBool(b: bool) | JNumber(n: int) | JString(s: string) | JNested(kind: string)

  /** A property as the `toJSON` loops see it: its name and its value, `None` when undefined. */
  type Prop = (string, Option<JsonValue>)

  /** The object after the loop `for (const prop of props) if (this[prop] !== undefined) base[prop] = …`. */
  function WithDefined(base: map<string, JsonValue>, props: seq<Prop>): map<string, JsonValue>
    decreases |props|
  {
    if props == [] then base
    else WithDefined(if props[0].1.Some? then base[props[0].0 := props[0].1.value] else base, props[1..])
  }

  /** A key ends up in the object exactly when it was there before or names a defined property. */
  lemma {:induction false} WithDefinedKeys(base: map<string, JsonValue>, props: seq<Prop>, k: string)
    ensures k in WithDefined(base, props) <==>
              k in base || exists i :: 0 <= i < |props| && props[i].0 == k && props[i].1.Some?
    decreases |props|
  {
    if props != [] {
      var next := if props[0].1.Some? then base[props[0].0 := props[0].1.value] else base;
      WithDefinedKeys(next, props[1..], k);
      assert forall i :: 1 <= i < |props| ==> props[i] == props[1..][i - 1];
      if exists i :: 0 <= i < |props| && props[i].0 == k && props[i].1.Some? {
        var i :| 0 <= i < |props| && props[i].0 == k && props[i].1.Some?;
        if i > 0 {
          assert props[1..][i - 1].0 == k && props[1..][i - 1].1.Some?;
        }
      }
    }
  }

  /** A defined property whose name no later property repeats ends up with its value. */
  lemma {:induction false} WithDefinedValue(base: map<string, JsonValue>, props: seq<Prop>, i: int)
    requires 0 <= i < |props| && props[i].1.Some?
    requires forall j :: i < j < |props| ==> props[j].0 != props[i].0
    ensures props[i].0 in WithDefined(base, props) && WithDefined(base, props)[props[i].0] == props[i].1.value
    decreases |props|
  {
    var next := if props[0].1.Some? then base[props[0].0 := props[0].1.value] else base;
    if i == 0 {
      WithDefinedUntouched(next, props[1..], props[0].0);
    } else {
      WithDefinedValue(next, props[1..], i - 1);
    }
  }

  /** A key named by no defined property keeps what the object had under it. */
  lemma {:induction false} WithDefinedUntouched(base: map<string, JsonValue>, props: seq<Prop>, k: string)
    requires forall j :: 0 <= j < |props| && props[j].1.Some? ==> props[j].0 != k
    ensures k in base ==> k in WithDefined(base, props) && WithDefined(base, props)[k] == base[k]
    ensures k !in base ==> k !in WithDefined(base, props)
    decreases |props|
  {
    if props != [] {
      var next := if props[0].1.Some? then base[props[0].0 := props[0].1.value] else base;
      WithDefinedUntouched(next, props[1..], k);
    }
  }

  /** The `toJSON` loop, run on the object `base` that the parent class produced. */
  method AddDefined(base: map<string, JsonValue>, props: seq<Prop>) returns (out: map<string, JsonValue>)
    ensures out == WithDefined(base, props)
  {
    out := base;
    var i := 0;
    while i < |props|
      invariant 0 <= i <= |props|
      invariant WithDefined(out, props[i..]) == WithDefined(base, props)
    {
      assert props[i..][1..] == props[i + 1..];
      var (name, value) := props[i];
      if value.Some? {
        out := out[name := value.value];
      }
      i := i + 1;
    }
  }

  /** The property `Channel.toJSON` adds. */
  function ChannelProps(channelType: Option<int>): seq<Prop> {
    [("type", if channelType.Some? then Some(JNumber(channelType.value)) else None)]
  }

  /** `Channel.toJSON`: `type` is emitted only when it is defined, unchanged. */
  method ChannelToJson(base: map<string, JsonValue>, channelType: Option<int>) returns (out: map<string, JsonValue>)
    ensures out == WithDefined(base, ChannelProps(channelType))
    ensures channelType.Some? ==> "type" in out && out["type"] == JNumber(channelType.value)
    ensures channelType.None? ==> out == base
  {
    out := AddDefined(base, ChannelProps(channelType));
    if channelType.Some? {
      WithDefinedValue(base, ChannelProps(channelType), 0);
    }
  }
}
