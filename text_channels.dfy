/** The guild text channel structure (TextChannel.js): constructor defaults, the update that
    patches `rateLimitPerUser` and `topic` on top of the guild channel's update, and
    `toJSON`. The class extends `GuildChannel` in the source; here a text channel holds its
    guild channel part as `channel` and every inherited call goes through it. */
module TextChannels {
  import opened Wrappers
  import Channels
  import Members
  import GuildChannels

  /** `last_pin_timestamp` as sent, with the value `Date.parse` gives for it. */
  datatype Timestamp = Timestamp(text: string, parsed: int)

  /** The payload of a text channel: the guild channel's keys and the text channel's own. */
  datatype TextData = TextData(
    channel: GuildChannels.ChannelData,
    lastMessageId: Option<Nullable<string>>,
    rateLimitPerUser: Option<Nullable<int>>,
    lastPinTimestamp: Option<Nullable<Timestamp>>,
    topic: Option<Nullable<string>>)

  /** The message collection of a channel, reduced to the limit it was created with
      (`None` when undefined); its contents and eviction are not part of this model. */
  datatype MessageStore = MessageStore(limit: Option<int>)

  /** The text channel's own fields. */
  datatype TextFields = TextFields(
    messages: MessageStore,
    lastMessageID: Nullable<string>,
    rateLimitPerUser: Option<Nullable<int>>,
    lastPinTimestamp: Nullable<int>,
    topic: Option<Nullable<string>>)

  /** `data.last_message_id || null`: a missing, null or empty id gives null. */
  function LastMessageIdOf(d: Option<Nullable<string>>): (r: Nullable<string>)
    ensures r.NonNull? <==> d.Some? && d.value.NonNull? && d.value.value != ""
    ensures r.NonNull? ==> r == d.value
  {
    if d.Some? && d.value.NonNull? && d.value.value != "" then d.value else Null
  }

  /** `data.rate_limit_per_user == undefined ? null : data.rate_limit_per_user`: loose
      equality makes null and undefined alike. */
  function RateLimitOrNull(d: Option<Nullable<int>>): (r: Nullable<int>)
    ensures r.NonNull? <==> d.Some? && d.value.NonNull?
    ensures r.NonNull? ==> r == d.value
  {
    if d.Some? then d.value else Null
  }

  /** `data.last_pin_timestamp ? Date.parse(data.last_pin_timestamp) : null`. */
  function LastPinOf(d: Option<Nullable<Timestamp>>): (r: Nullable<int>)
    ensures r.NonNull? <==> d.Some? && d.value.NonNull? && d.value.value.text != ""
    ensures r.NonNull? ==> r.value == d.value.value.parsed
  {
    if d.Some? && d.value.NonNull? && d.value.value.text != "" then NonNull(d.value.value.parsed) else Null
  }

  /** The limit of the message collection: a null or undefined `messageLimit` falls back to
      the client's option when a guild is given. */
  function MessageLimit(messageLimit: Option<int>, guildLimit: Option<int>): (r: Option<int>)
    ensures messageLimit.Some? ==> r == messageLimit
    ensures messageLimit.None? ==> r == guildLimit
  {
    messageLimit.OrElse(guildLimit)
  }

  /** TextChannel's own part of `update(data)` on fields `f`. */
  function PatchText(f: TextFields, d: TextData): TextFields {
    f.(rateLimitPerUser := d.rateLimitPerUser.OrElse(f.rateLimitPerUser),
       topic := d.topic.OrElse(f.topic))
  }

  /** `rateLimitPerUser` and `topic` keep their values when absent and take the payload's
      (null included) when present; nothing else changes. */
  lemma PatchTextFields(f: TextFields, d: TextData)
    ensures var r := PatchText(f, d);
            r.rateLimitPerUser == (if d.rateLimitPerUser.Some? then d.rateLimitPerUser else f.rateLimitPerUser)
            && r.topic == (if d.topic.Some? then d.topic else f.topic)
            && r.messages == f.messages && r.lastMessageID == f.lastMessageID
            && r.lastPinTimestamp == f.lastPinTimestamp
  {
  }

  lemma PatchTextIdempotent(f: TextFields, d: TextData)
    ensures PatchText(PatchText(f, d), d) == PatchText(f, d)
  {
  }

  /** The text fields as the constructor leaves them. The guild channel's constructor
      dispatches to this class's `update`, so the text part of the update runs once on the
      still undefined fields, the constructor then sets its defaults, and the update runs
      again. */
  function ConstructedFields(d: TextData, limit: Option<int>): TextFields {
    var first := PatchText(TextFields(MessageStore(limit), Null, None, Null, None), d);
    var defaults := first.(lastMessageID := LastMessageIdOf(d.lastMessageId),
                           rateLimitPerUser := Some(RateLimitOrNull(d.rateLimitPerUser)),
                           lastPinTimestamp := LastPinOf(d.lastPinTimestamp));
    PatchText(defaults, d)
  }

  /** After construction `rateLimitPerUser` is always defined: the payload's value when it
      has one, null included, and null otherwise. `topic` is the payload's, undefined when
      absent. */
  lemma ConstructedFieldsMeaning(d: TextData, limit: Option<int>)
    ensures var r := ConstructedFields(d, limit);
            r.rateLimitPerUser == Some(d.rateLimitPerUser.GetOr(Null))
            && r.topic == d.topic
            && r.messages == MessageStore(limit)
            && r.lastMessageID == LastMessageIdOf(d.lastMessageId)
            && r.lastPinTimestamp == LastPinOf(d.lastPinTimestamp)
  {
  }

  /** The properties `TextChannel.toJSON` adds after the guild channel's. */
  function TextProps(f: TextFields): seq<Channels.Prop> {
    [("lastMessageID", Some(NullableString(f.lastMessageID))),
     ("lastPinTimestamp", Some(if f.lastPinTimestamp.NonNull? then Channels.JNumber(f.lastPinTimestamp.value) else Channels.JNull)),
     ("messages", Some(Channels.JNested("Collection"))),
     ("rateLimitPerUser", if f.rateLimitPerUser.Some? then Some(NullableNumber(f.rateLimitPerUser.value)) else None),
     ("topic", if f.topic.Some? then Some(NullableString(f.topic.value)) else None)]
  }

  function NullableString(s: Nullable<string>): Channels.JsonValue {
    if s.NonNull? then Channels.JString(s.value) else Channels.JNull
  }

  function NullableNumber(n: Nullable<int>): Channels.JsonValue {
    if n.NonNull? then Channels.JNumber(n.value) else Channels.JNull
  }

  class TextChannel {
    const channel: GuildChannels.GuildChannel
    var messages: MessageStore
    var lastMessageID: Nullable<string>
    var rateLimitPerUser: Option<Nullable<int>>
    var lastPinTimestamp: Nullable<int>
    var topic: Option<Nullable<string>>

    function Fields(): TextFields
      reads this
    {
      TextFields(messages, lastMessageID, rateLimitPerUser, lastPinTimestamp, topic)
    }

    /** `new TextChannel(data, guild, messageLimit)`, with the update run twice as described
        at `ConstructedFields`. The guild channel part ends as after one update, since that
        update is idempotent. */
    constructor(data: TextData, guild: Members.Guild?, messageLimit: Option<int>)
      requires data.channel.name.Some?
      ensures fresh(channel)
      ensures channel.id == data.channel.id && channel.guild == GuildChannels.LinkFor(guild, data.channel.guildId)
      ensures channel.Fields() == GuildChannels.PatchChannel(GuildChannels.FreshChannelFields(data.channel), data.channel)
      ensures Fields() == ConstructedFields(data, MessageLimit(messageLimit, if guild == null then None else Some(guild.client.messageLimit)))
    {
      channel := new GuildChannels.GuildChannel(data.channel, guild);
      rateLimitPerUser := data.rateLimitPerUser.OrElse(None);
      topic := data.topic.OrElse(None);
      var limit := messageLimit;
      if messageLimit.None? && guild != null {
        limit := Some(guild.client.messageLimit);
      }
      messages := MessageStore(limit);
      lastMessageID := LastMessageIdOf(data.lastMessageId);
      rateLimitPerUser := Some(RateLimitOrNull(data.rateLimitPerUser));
      lastPinTimestamp := LastPinOf(data.lastPinTimestamp);
      new;
      GuildChannels.PatchChannelIdempotent(GuildChannels.FreshChannelFields(data.channel), data.channel);
      Update(data);
    }

    /** `update(data)`: the guild channel's update first, then the text channel's fields. */
    method Update(data: TextData)
      modifies this, channel
      ensures channel.Fields() == GuildChannels.PatchChannel(old(channel.Fields()), data.channel)
      ensures Fields() == PatchText(old(Fields()), data)
    {
      channel.Update(data.channel);
      rateLimitPerUser := data.rateLimitPerUser.OrElse(rateLimitPerUser);
      topic := data.topic.OrElse(topic);
    }

    /** `toJSON` on the object `base` that the root structure produced: the guild channel's
        properties, then the five text channel properties, each only when defined. */
    method ToJson(base: map<string, Channels.JsonValue>) returns (out: map<string, Channels.JsonValue>)
      ensures var inherited := Channels.WithDefined(Channels.WithDefined(base, Channels.ChannelProps(channel.channelType)),
                                                    GuildChannels.GuildChannelProps(channel.Fields()));
              out == Channels.WithDefined(inherited, TextProps(Fields()))
      ensures "lastMessageID" in out && out["lastMessageID"] == NullableString(lastMessageID)
      ensures "messages" in out
      ensures rateLimitPerUser.None? && "rateLimitPerUser" !in base ==> "rateLimitPerUser" !in out
      ensures topic.Some? ==> "topic" in out && out["topic"] == NullableString(topic.value)
    {
      var inherited := channel.ToJson(base);
      out := Channels.AddDefined(inherited, TextProps(Fields()));
      Channels.WithDefinedValue(inherited, TextProps(Fields()), 0);
      Channels.WithDefinedValue(inherited, TextProps(Fields()), 2);
      if topic.Some? {
        Channels.WithDefinedValue(inherited, TextProps(Fields()), 4);
      }
      if rateLimitPerUser.None? && "rateLimitPerUser" !in base {
        GuildChannelPropsOmitRateLimit(base, channel.channelType, channel.Fields());
        Channels.WithDefinedUntouched(inherited, TextProps(Fields()), "rateLimitPerUser");
      }
    }
  }

  /** The parent classes never emit `rateLimitPerUser`. */
  lemma GuildChannelPropsOmitRateLimit(base: map<string, Channels.JsonValue>, channelType: Option<int>,
                                       f: GuildChannels.ChannelFields)
    requires "rateLimitPerUser" !in base
    ensures "rateLimitPerUser" !in Channels.WithDefined(Channels.WithDefined(base, Channels.ChannelProps(channelType)),
                                                        GuildChannels.GuildChannelProps(f))
  {
    Channels.WithDefinedUntouched(base, Channels.ChannelProps(channelType), "rateLimitPerUser");
    Channels.WithDefinedUntouched(Channels.WithDefined(base, Channels.ChannelProps(channelType)),
                                  GuildChannels.GuildChannelProps(f), "rateLimitPerUser");
  }
}
