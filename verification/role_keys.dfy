/**
 The role composite-key parser (controller/storing/deserialization/
 RoleKeyDeserializer.java). A persisted role key is split on ",", each of its
 first three fields on "=", and the values are trimmed with "." / "[" and
 "]" into a title, a speaker token and a type token.
 */
module RoleKeys {
  import opened Outcomes
  import opened JavaStrings
  import opened Planning

  const Comma: set<char> := {','}
  const Equals: set<char> := {'='}
  const DotOrBracket: set<char> := {'.', '['}
  const CloseBracket: set<char> := {']'}

  /** The characters the key format gives a meaning to. */
  const Reserved: set<char> := {',', '=', '.', '[', ']'}

  /** The speaker token that stands for "no speaker". */
  const NoSpeaker: string := "empty"

  /**
   `getType`: "SPEECH" and "EFFECTS" name their types; every other token,
   "SOUNDTRACK" included, falls to SOUNDTRACK.
   */
  function GetType(token: string): (t: RoleType)
    ensures t == Speech <==> token == "SPEECH"
    ensures t == Effects <==> token == "EFFECTS"
    ensures t != Soundtrack ==> token == TypeName(t)
    ensures token == TypeName(Soundtrack) ==> t == Soundtrack
  {
    if token == "SPEECH" then Speech
    else if token == "EFFECTS" then Effects
    else Soundtrack
  }

  /**
   `extractValues`: [title, speaker token, type token]. Each Java array
   access past the end of a split result throws.
   */
  function ExtractValues(key: string): (r: Result<seq<string>>)
    ensures r.Ok? ==> |r.value| == 3
    ensures r.Throw? ==> r.exception == IndexOutOfBounds
    ensures |Split(key, Comma)| < 3 ==> r.Throw?
  {
    var fields := Split(key, Comma);
    var f0 :- At(fields, 0);
    var title :- At(Split(f0, Equals), 1);
    var f1 :- At(fields, 1);
    var v1 :- At(Split(f1, Equals), 1);
    var inner :- At(Split(v1, DotOrBracket), 1);
    var speaker :- At(Split(inner, CloseBracket), 0);
    var f2 :- At(fields, 2);
    var v2 :- At(Split(f2, Equals), 1);
    var ty :- At(Split(v2, CloseBracket), 0);
    Ok([title, speaker, ty])
  }

  /**
   `deserializeKey`: a role with the extracted title and mapped type, and no
   speaker when the speaker token is "empty". The Java code picks one of
   three role classes by type; here that class is the role's `kind`. A
   malformed key throws: fewer than three comma fields, any of the first
   three fields with no "=", or a speaker value with neither "." nor "[".
   */
  function DeserializeKey(key: string): (r: Result<Role>)
    ensures r.Throw? ==> r.exception == IndexOutOfBounds
    ensures |Split(key, Comma)| < 3 ==> r.Throw?
    ensures |Split(key, Comma)| > 0 && Plain(Split(key, Comma)[0], Equals) ==> r.Throw?
    ensures |Split(key, Comma)| > 1 && Plain(Split(key, Comma)[1], Equals) ==> r.Throw?
    ensures |Split(key, Comma)| > 2 && Plain(Split(key, Comma)[2], Equals) ==> r.Throw?
    ensures
      var fields := Split(key, Comma);
      |fields| > 1 && |Split(fields[1], Equals)| > 1 && Plain(Split(fields[1], Equals)[1], DotOrBracket)
      ==> r.Throw?
    ensures r.Ok? ==> Plain(r.value.title, Comma + Equals)
    ensures r.Ok? && r.value.speaker.Some? ==> r.value.speaker.value != NoSpeaker
    ensures r.Ok? && r.value.speaker.Some? ==> Plain(r.value.speaker.value, Reserved)
  {
    match ExtractValues(key)
    case Throw(e) => Throw(e)
    case Ok(values) =>
      var speaker := if values[1] == NoSpeaker then None else Some(values[1]);
      ExtractedPlain(key);
      Ok(Role(values[0], speaker, GetType(values[2])))
  }

  /**
   The extracted title holds no "," or "=", and the speaker token none of
   the reserved characters: each is a piece of a piece of the key.
   */
  lemma ExtractedPlain(key: string)
    ensures ExtractValues(key).Ok? ==> Plain(ExtractValues(key).value[0], Comma + Equals)
    ensures ExtractValues(key).Ok? ==> Plain(ExtractValues(key).value[1], Reserved)
  {
    var fields := Split(key, Comma);
    if ExtractValues(key).Ok? {
      var f0 := fields[0];
      var title := Split(f0, Equals)[1];
      SplitInherits(f0, Equals, Comma);
      var f1 := fields[1];
      var v1 := Split(f1, Equals)[1];
      SplitInherits(f1, Equals, Comma);
      var inner := Split(v1, DotOrBracket)[1];
      SplitInherits(v1, DotOrBracket, Comma + Equals);
      var speaker := Split(inner, CloseBracket)[0];
      SplitInherits(inner, CloseBracket, Comma + Equals + DotOrBracket);
      assert ExtractValues(key).value == [title, speaker, ExtractValues(key).value[2]];
    }
  }

  // ---------------------------------------------------------------- round trip

  /** The type token of each role type, as its Java enum constant. */
  function TypeName(t: RoleType): string {
    match t
    case Speech => "SPEECH"
    case Soundtrack => "SOUNDTRACK"
    case Effects => "EFFECTS"
  }

  /** Optional.toString of the speaker. */
  function SpeakerText(speaker: Option<string>): string {
    match speaker
    case None => "Optional.empty"
    case Some(s) => "Optional[" + s + "]"
  }

  /** One `name=value` field of a key. */
  function Field(name: string, value: string): string {
    name + "=" + value
  }

  /**
   A key of the shape the parser reads, `p0=T,p1=Optional[S],p2=Y]`, for any
   field names `p0`, `p1`, `p2`.
   */
  function KeyWith(p0: string, p1: string, p2: string, title: string, speaker: Option<string>, y: string): string {
    Field(p0, title) + "," + Field(p1, SpeakerText(speaker)) + "," + Field(p2, y + "]")
  }

  /**
   One example layout of a role's key, with the field names "Role[title",
   " speaker" and " type"; the names the program really writes are not
   modelled, and `KeyValues` holds for any of them.
   */
  function KeyOf(r: Role): string {
    KeyWith("Role[title", " speaker", " type", r.title, r.speaker, TypeName(r.kind))
  }

  /** A field name a key can carry: no "," and no "=". */
  predicate FieldName(p: string) {
    Plain(p, Comma + Equals)
  }

  /** A speaker name the key can carry: non-empty, with no reserved character. */
  predicate Spoken(s: string) {
    s != "" && Plain(s, Reserved)
  }

  /**
   A role whose key survives the parser: a non-empty title with no "," or
   "=", and a carriable speaker other than "empty".
   */
  predicate Keyable(r: Role) {
    && r.title != "" && Plain(r.title, Comma + Equals)
    && (r.speaker.Some? ==> Spoken(r.speaker.value) && r.speaker.value != NoSpeaker)
  }

  /** The speaker token a key carries for a speaker. */
  function SpeakerToken(speaker: Option<string>): string {
    if speaker.Some? then speaker.value else NoSpeaker
  }

  lemma TypeNameRoundTrip(t: RoleType)
    ensures GetType(TypeName(t)) == t
    ensures TypeName(t) != "" && Plain(TypeName(t), Reserved)
  {
  }

  lemma {:induction false} SpeakerTextPlain(speaker: Option<string>)
    requires speaker.Some? ==> Spoken(speaker.value)
    ensures SpeakerText(speaker) != "" && Plain(SpeakerText(speaker), Comma + Equals)
  {
    if speaker.Some? {
      PlainConcat("Optional[", speaker.value, Comma + Equals);
      PlainConcat("Optional[" + speaker.value, "]", Comma + Equals);
    }
  }

  lemma {:induction false} KeyFields(p0: string, p1: string, p2: string, title: string, speaker: Option<string>, y: string)
    requires FieldName(p0) && FieldName(p1) && FieldName(p2)
    requires Plain(title, Comma)
    requires speaker.Some? ==> Spoken(speaker.value)
    requires Plain(y, Comma)
    ensures Split(KeyWith(p0, p1, p2, title, speaker, y), Comma)
         == [Field(p0, title), Field(p1, SpeakerText(speaker)), Field(p2, y + "]")]
  {
    SpeakerTextPlain(speaker);
    PlainConcat(p0, "=", Comma);
    PlainConcat(p0 + "=", title, Comma);
    PlainConcat(p1, "=", Comma);
    PlainConcat(p1 + "=", SpeakerText(speaker), Comma);
    PlainConcat(y, "]", Comma);
    PlainConcat(p2, "=", Comma);
    PlainConcat(p2 + "=", y + "]", Comma);
    var f0, f1, f2 := Field(p0, title), Field(p1, SpeakerText(speaker)), Field(p2, y + "]");
    assert f2[|p2|] == '=';
    assert KeyWith(p0, p1, p2, title, speaker, y) == f0 + [','] + f1 + [','] + f2;
    SplitThree(f0, ',', f1, ',', f2, Comma);
  }

  /** A field `p=v` with a non-empty value splits on "=" into its name and value. */
  lemma {:induction false} FieldValue(p: string, v: string)
    requires FieldName(p)
    requires v != "" && Plain(v, Equals)
    ensures Split(Field(p, v), Equals) == [p, v]
  {
    assert Field(p, v) == p + ['='] + v;
    SplitTwo(p, '=', v, Equals);
  }

  lemma {:induction false} SpeakerTokenValue(speaker: Option<string>)
    requires speaker.Some? ==> Spoken(speaker.value)
    ensures |Split(SpeakerText(speaker), DotOrBracket)| == 2
    ensures Split(Split(SpeakerText(speaker), DotOrBracket)[1], CloseBracket) == [SpeakerToken(speaker)]
  {
    match speaker
    case None =>
      assert SpeakerText(speaker) == "Optional" + ['.'] + NoSpeaker;
      SplitTwo("Optional", '.', NoSpeaker, DotOrBracket);
    case Some(s) =>
      assert SpeakerText(speaker) == "Optional" + ['['] + (s + "]");
      PlainConcat(s, "]", DotOrBracket);
      SplitTwo("Optional", '[', s + "]", DotOrBracket);
      SplitTrailing(s, ']', CloseBracket);
  }

  /** The type value `Y]` is read back as `Y`. */
  lemma {:induction false} TypeValue(y: string)
    requires y != "" && Plain(y, Equals + CloseBracket)
    ensures Split(y + "]", CloseBracket) == [y]
  {
    SplitTrailing(y, ']', CloseBracket);
  }

  /**
   The values read from a key `p0=T,p1=Optional[S],p2=Y]`, whatever its
   field names: T, the speaker token S ("empty" for Optional.empty) and Y.
   */
  lemma {:induction false} KeyValues(p0: string, p1: string, p2: string, title: string, speaker: Option<string>, y: string)
    requires FieldName(p0) && FieldName(p1) && FieldName(p2)
    requires title != "" && Plain(title, Comma + Equals)
    requires speaker.Some? ==> Spoken(speaker.value)
    requires y != "" && Plain(y, Comma + Equals + CloseBracket)
    ensures ExtractValues(KeyWith(p0, p1, p2, title, speaker, y)) == Ok([title, SpeakerToken(speaker), y])
  {
    KeyFields(p0, p1, p2, title, speaker, y);
    FieldValue(p0, title);
    SpeakerTextPlain(speaker);
    FieldValue(p1, SpeakerText(speaker));
    SpeakerTokenValue(speaker);
    PlainConcat(y, "]", Equals);
    FieldValue(p2, y + "]");
    TypeValue(y);
  }

  /**
   Parsing a key `p0=T,p1=Optional[S],p2=Y]`, whatever its field names,
   gives the role with title T, speaker S (none for Optional.empty or for a
   speaker named "empty") and the type Y maps to.
   */
  lemma {:induction false} KeyRoundTrip(p0: string, p1: string, p2: string, title: string, speaker: Option<string>, y: string)
    requires FieldName(p0) && FieldName(p1) && FieldName(p2)
    requires title != "" && Plain(title, Comma + Equals)
    requires speaker.Some? ==> Spoken(speaker.value)
    requires y != "" && Plain(y, Comma + Equals + CloseBracket)
    ensures DeserializeKey(KeyWith(p0, p1, p2, title, speaker, y))
         == Ok(Role(title, if SpeakerToken(speaker) == NoSpeaker then None else speaker, GetType(y)))
  {
    KeyValues(p0, p1, p2, title, speaker, y);
  }

  /** Parsing the key of a keyable role gives back that role. */
  lemma {:induction false} RoundTrip(r: Role)
    requires Keyable(r)
    ensures DeserializeKey(KeyOf(r)) == Ok(r)
  {
    TypeNameRoundTrip(r.kind);
    KeyValues("Role[title", " speaker", " type", r.title, r.speaker, TypeName(r.kind));
  }

  /** A speaker literally named "empty" is read back as no speaker. */
  lemma {:induction false} SpeakerNamedEmptyIsLost(title: string, kind: RoleType)
    requires title != "" && Plain(title, Comma + Equals)
    ensures DeserializeKey(KeyOf(Role(title, Some(NoSpeaker), kind))) == Ok(Role(title, None, kind))
  {
    TypeNameRoundTrip(kind);
    KeyValues("Role[title", " speaker", " type", title, Some(NoSpeaker), TypeName(kind));
  }

  /**
   A role with an empty title has no readable key: "Role[title=" splits on
   "=" into one piece, its trailing empty piece being dropped.
   */
  lemma {:induction false} EmptyTitleRejected(r: Role)
    requires r.title == ""
    requires r.speaker.Some? ==> Spoken(r.speaker.value)
    ensures DeserializeKey(KeyOf(r)) == Throw(IndexOutOfBounds)
  {
    TypeNameRoundTrip(r.kind);
    KeyFields("Role[title", " speaker", " type", "", r.speaker, TypeName(r.kind));
    assert Field("Role[title", "") == "Role[title" + ['='];
    SplitTrailing("Role[title", '=', Equals);
  }
}
