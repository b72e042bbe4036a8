/**
 The view-side timeline store (view/common/ViewDataImpl.java): a map from
 channels to ordered clip lists, and a set of sections. Channels, clips and
 sections are equal exactly when their titles are equal, so the channel map
 is keyed by title and the section set holds at most one section per title.
 */
module ViewData {
  import opened Outcomes

  /** ViewDataImpl.Effect: an effect shown in a channel's effect list. */
  datatype Effect = Effect(kind: string)

  /** ViewDataImpl.Channel without its JavaFX nodes. */
  datatype Channel = Channel(title: string, group: string, muted: bool, solo: bool, effects: seq<Effect>)

  /** ViewDataImpl.Clip without its JavaFX nodes; positions are Java doubles. */
  datatype Clip = Clip(
    title: string,
    position: real,
    duration: real,
    contentPosition: Option<real>,
    contentDuration: Option<real>)

  /** ViewDataImpl.Section without its JavaFX nodes. */
  datatype Section = Section(title: string, position: real)

  /**
   One entry of the channel map: the key object the map holds, and the
   channel's clip list.
   */
  datatype Row = Row(channel: Channel, clips: seq<Clip>)

  /** The store: rows keyed by channel title, and the section set. */
  datatype Store = Store(rows: map<string, Row>, sections: set<Section>)

  const EmptyStore := Store(map[], {})

  /** A clip's content position and duration are both present or both absent. */
  predicate Consistent(c: Clip) {
    c.contentPosition.Some? == c.contentDuration.Some?
  }

  /** No two sections of `ss` share a title. */
  predicate UniqueTitles(ss: set<Section>) {
    forall a, b :: a in ss && b in ss && a.title == b.title ==> a == b
  }

  function Titles(ss: set<Section>): set<string> {
    set x | x in ss :: x.title
  }

  /**
   The store's invariant: each row is filed under its channel's title, every
   clip is consistent, and section titles are unique.
   */
  predicate Valid(s: Store) {
    && (forall t :: t in s.rows ==> s.rows[t].channel.title == t)
    && (forall t, i :: t in s.rows && 0 <= i < |s.rows[t].clips| ==> Consistent(s.rows[t].clips[i]))
    && UniqueTitles(s.sections)
  }

  // ---------------------------------------------------------------- entities

  /**
   The Channel constructor as written: its `effects` parameter shadows the
   field, so the list passed in is appended to itself and the new channel's
   own effect list stays empty.
   */
  function NewChannel(title: string, group: string, effects: Option<seq<Effect>>): (c: Channel)
    ensures c.title == title && c.group == group
    ensures c.effects == []
    ensures !c.muted && !c.solo
  {
    Channel(title, group, false, false, [])
  }

  /** A channel built with a non-empty effect list still has no effects. */
  lemma NewChannelDropsEffects()
    ensures NewChannel("Host", "", Some([Effect("reverb")])).effects != [Effect("reverb")]
  {
  }

  /**
   The Channel constructor as evidently intended: the given effects, if
   any, become the channel's effect list.
   */
  function NewChannelIntended(title: string, group: string, effects: Option<seq<Effect>>): (c: Channel)
    ensures c.title == title && c.group == group
    ensures effects.Some? ==> c.effects == effects.value
    ensures effects.None? ==> c.effects == []
    ensures !c.muted && !c.solo
  {
    Channel(title, group, false, false, if effects.Some? then effects.value else [])
  }

  /**
   The Clip constructor: it throws unless content position and content
   duration are both present or both absent.
   */
  function NewClip(
    title: string,
    position: real,
    duration: real,
    contentPosition: Option<real>,
    contentDuration: Option<real>): (r: Result<Clip>)
    ensures r.Ok? <==> (contentPosition.None? <==> contentDuration.None?)
    ensures r.Throw? ==> r.exception == IllegalArgument
    ensures r.Ok? ==> Consistent(r.value)
    ensures r.Ok? ==> r.value.title == title && r.value.position == position && r.value.duration == duration
    ensures r.Ok? ==> r.value.contentPosition == contentPosition && r.value.contentDuration == contentDuration
    ensures r.Ok? ==> (IsEmpty(r.value) <==> contentDuration.None?)
  {
    if contentDuration.None? != contentPosition.None? then
      Throw(IllegalArgument)
    else
      Ok(Clip(title, position, duration, contentPosition, contentDuration))
  }

  /** Clip.isEmpty: the clip has no content position. */
  predicate IsEmpty(c: Clip) {
    c.contentPosition.None?
  }

  // ---------------------------------------------------------------- clip lists

  /**
   The index of the first clip titled `title`, or -1 when there is none:
   the element List.remove(Object) and the getClip stream both pick.
   */
  function FirstWithTitle(clips: seq<Clip>, title: string): (i: int)
    ensures -1 <= i < |clips|
    ensures i == -1 <==> forall k :: 0 <= k < |clips| ==> clips[k].title != title
    ensures 0 <= i ==> clips[i].title == title
    ensures 0 <= i ==> forall k :: 0 <= k < i ==> clips[k].title != title
  {
    if |clips| == 0 then -1
    else if clips[0].title == title then 0
    else
      var j := FirstWithTitle(clips[1..], title);
      if j == -1 then -1 else j + 1
  }

  // ---------------------------------------------------------------- channels

  /**
   ViewDataImpl.addChannel: maps the channel to a fresh empty clip list. A
   channel whose title is already present keeps its original key object but
   loses its clips.
   */
  function AddChannel(s: Store, ch: Channel): (r: Store)
    ensures r.rows.Keys == s.rows.Keys + {ch.title}
    ensures r.rows[ch.title].clips == []
    ensures ch.title in s.rows ==> r.rows[ch.title].channel == s.rows[ch.title].channel
    ensures ch.title !in s.rows ==> r.rows[ch.title].channel == ch
    ensures forall t :: t in s.rows && t != ch.title ==> r.rows[t] == s.rows[t]
    ensures r.sections == s.sections
    ensures Valid(s) ==> Valid(r)
  {
    var key := if ch.title in s.rows then s.rows[ch.title].channel else ch;
    s.(rows := s.rows[ch.title := Row(key, [])])
  }

  /** ViewDataImpl.removeChannel: drops the title-equal channel, if any. */
  function RemoveChannel(s: Store, ch: Channel): (r: Store)
    ensures r.rows.Keys == s.rows.Keys - {ch.title}
    ensures forall t :: t in r.rows ==> r.rows[t] == s.rows[t]
    ensures ch.title !in s.rows ==> r == s
    ensures r.sections == s.sections
    ensures Valid(s) ==> Valid(r)
  {
    s.(rows := s.rows - {ch.title})
  }

  /**
   ViewDataImpl.getChannel: the channel with the given title, or null. In
   a valid store the key filed under a title is the only one with it.
   */
  function GetChannel(s: Store, title: string): (r: Option<Channel>)
    ensures r.Some? <==> title in s.rows
    ensures r.Some? ==> r.value == s.rows[title].channel
    ensures Valid(s) && r.Some? ==> r.value.title == title
  {
    if title in s.rows then Some(s.rows[title].channel) else None
  }

  // ---------------------------------------------------------------- clips

  /**
   ViewDataImpl.addClip: appends the clip at the end of the channel's list,
   with no title check; an unknown channel throws and changes nothing.
   */
  function AddClip(s: Store, ch: Channel, clip: Clip): (r: Result<Store>)
    ensures r.Throw? <==> ch.title !in s.rows
    ensures r.Throw? ==> r.exception == IllegalArgument
    ensures r.Ok? ==> r.value.rows.Keys == s.rows.Keys
    ensures r.Ok? ==> r.value.rows[ch.title].channel == s.rows[ch.title].channel
    ensures r.Ok? ==> |r.value.rows[ch.title].clips| == |s.rows[ch.title].clips| + 1
    ensures r.Ok? ==> r.value.rows[ch.title].clips[..|s.rows[ch.title].clips|] == s.rows[ch.title].clips
    ensures r.Ok? ==> r.value.rows[ch.title].clips[|s.rows[ch.title].clips|] == clip
    ensures r.Ok? ==> forall t :: t in s.rows && t != ch.title ==> r.value.rows[t] == s.rows[t]
    ensures r.Ok? ==> r.value.sections == s.sections
    ensures r.Ok? && Valid(s) && Consistent(clip) ==> Valid(r.value)
  {
    if ch.title !in s.rows then
      Throw(IllegalArgument)
    else
      var row := s.rows[ch.title];
      var r := s.(rows := s.rows[ch.title := row.(clips := row.clips + [clip])]);
      assert r.rows[ch.title].clips[..|row.clips|] == row.clips;
      Ok(r)
  }

  /**
   ViewDataImpl.removeClip: removes the first title-equal clip of the
   channel. It throws when the channel is unknown or holds no such clip.
   */
  function RemoveClip(s: Store, ch: Channel, clip: Clip): (r: Result<Store>)
    ensures r.Throw? <==> ch.title !in s.rows || forall k :: 0 <= k < |s.rows[ch.title].clips| ==> s.rows[ch.title].clips[k].title != clip.title
    ensures r.Throw? ==> r.exception == IllegalArgument
    ensures r.Ok? ==> r.value.rows.Keys == s.rows.Keys
    ensures r.Ok? ==> r.value.rows[ch.title].channel == s.rows[ch.title].channel
    ensures r.Ok? ==>
      var before := s.rows[ch.title].clips;
      exists i :: 0 <= i < |before| && before[i].title == clip.title
        && (forall k :: 0 <= k < i ==> before[k].title != clip.title)
        && r.value.rows[ch.title].clips == before[..i] + before[i + 1..]
    ensures r.Ok? ==> forall t :: t in s.rows && t != ch.title ==> r.value.rows[t] == s.rows[t]
    ensures r.Ok? ==> r.value.sections == s.sections
    ensures r.Ok? && Valid(s) ==> Valid(r.value)
  {
    if ch.title !in s.rows then
      Throw(IllegalArgument)
    else
      var row := s.rows[ch.title];
      var i := FirstWithTitle(row.clips, clip.title);
      if i == -1 then
        Throw(IllegalArgument)
      else
        var rest := row.clips[..i] + row.clips[i + 1..];
        assert forall k :: 0 <= k < |rest| ==> rest[k] in row.clips;
        Ok(s.(rows := s.rows[ch.title := row.(clips := rest)]))
  }

  /**
   ViewDataImpl.getClip: the first clip titled `cl` on the channel titled
   `ch`, or null when there is none. An unknown channel makes the lookup
   dereference null.
   */
  function GetClip(s: Store, ch: string, cl: string): (r: Result<Option<Clip>>)
    ensures r.Throw? <==> ch !in s.rows
    ensures r.Throw? ==> r.exception == NullPointer
    ensures r.Ok? && r.value.None? ==> forall k :: 0 <= k < |s.rows[ch].clips| ==> s.rows[ch].clips[k].title != cl
    ensures r.Ok? && r.value.Some? ==>
      var clips := s.rows[ch].clips;
      exists i :: 0 <= i < |clips| && clips[i] == r.value.value && clips[i].title == cl
        && forall k :: 0 <= k < i ==> clips[k].title != cl
  {
    match GetChannel(s, ch)
    case None => Throw(NullPointer)
    case Some(c) =>
      var clips := s.rows[ch].clips;
      var i := FirstWithTitle(clips, cl);
      if i == -1 then Ok(None) else Ok(Some(clips[i]))
  }

  /**
   Removing a freshly added clip restores the store, provided the channel
   held no clip with that title.
   */
  lemma AddThenRemoveClip(s: Store, ch: Channel, clip: Clip)
    requires ch.title in s.rows
    requires forall k :: 0 <= k < |s.rows[ch.title].clips| ==> s.rows[ch.title].clips[k].title != clip.title
    ensures AddClip(s, ch, clip).Ok?
    ensures RemoveClip(AddClip(s, ch, clip).value, ch, clip) == Ok(s)
  {
    var before := s.rows[ch.title].clips;
    var added := AddClip(s, ch, clip).value;
    var after := added.rows[ch.title].clips;
    assert after == before + [clip];
    assert FirstWithTitle(after, clip.title) == |before|;
    assert after[..|before|] + after[|before| + 1..] == before;
    assert added.rows[ch.title := s.rows[ch.title]] == s.rows;
  }

  /** Adding a clip twice keeps both copies: addClip has no title check. */
  lemma AddClipKeepsDuplicates(s: Store, ch: Channel, clip: Clip)
    requires ch.title in s.rows
    ensures AddClip(s, ch, clip).Ok?
    ensures AddClip(AddClip(s, ch, clip).value, ch, clip).Ok?
    ensures
      var twice := AddClip(AddClip(s, ch, clip).value, ch, clip).value;
      twice.rows[ch.title].clips == s.rows[ch.title].clips + [clip, clip]
  {
    var once := AddClip(s, ch, clip).value;
    var twice := AddClip(once, ch, clip).value;
    assert once.rows[ch.title].clips == s.rows[ch.title].clips + [clip];
    assert twice.rows[ch.title].clips == once.rows[ch.title].clips + [clip];
  }

  // ---------------------------------------------------------------- sections

  /**
   ViewDataImpl.addSection: HashSet.add, which leaves the set as it is when
   a title-equal section is already there.
   */
  function AddSection(s: Store, sec: Section): (r: Store)
    ensures Titles(r.sections) == Titles(s.sections) + {sec.title}
    ensures sec.title in Titles(s.sections) ==> r == s
    ensures sec.title !in Titles(s.sections) ==> r.sections == s.sections + {sec}
    ensures r.rows == s.rows
    ensures Valid(s) ==> Valid(r)
  {
    if exists x :: x in s.sections && x.title == sec.title then
      s
    else
      s.(sections := s.sections + {sec})
  }

  /** ViewDataImpl.removeSection: HashSet.remove, which matches by title. */
  function RemoveSection(s: Store, sec: Section): (r: Store)
    ensures Titles(r.sections) == Titles(s.sections) - {sec.title}
    ensures r.sections <= s.sections
    ensures forall x :: x in s.sections && x.title != sec.title ==> x in r.sections
    ensures r.rows == s.rows
    ensures Valid(s) ==> Valid(r)
  {
    s.(sections := set x | x in s.sections && x.title != sec.title)
  }

  /** Removing a section that was just added under a new title restores the set. */
  lemma AddThenRemoveSection(s: Store, sec: Section)
    requires sec.title !in Titles(s.sections)
    ensures RemoveSection(AddSection(s, sec), sec) == s
  {
    var added := AddSection(s, sec);
    assert added.sections == s.sections + {sec};
    var removed := RemoveSection(added, sec);
    forall x | x in s.sections
      ensures x.title != sec.title
    {
      assert x.title in Titles(s.sections);
    }
    assert removed.sections == s.sections;
  }
}
