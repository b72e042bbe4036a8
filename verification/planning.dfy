/**
 The planning-level vocabulary the core refers to: the three role types of
 planning/RPRole.java, the part types used by the controller, and a role as
 far as its persisted key describes it.
 */
module Planning {
  import opened Outcomes

  /** RPRole.RoleType. */
  datatype RoleType = Speech | Soundtrack | Effects

  /** RPPart.PartType, as far as the controller uses it. */
  datatype PartType = SpeechPart | EffectsPart | SoundtrackPart

  /**
   A role as identified by its key: a title, an optional speaker and a type.
   SpeechRole, SoundtrackRole and EffectsRole are the three concrete classes,
   told apart here by `kind`.
   */
  datatype Role = Role(title: string, speaker: Option<string>, kind: RoleType)
}
