# Resplan timeline and mixer core, modelled in Dafny

Resplan plans and assembles multi-track audio productions. Roles (speakers,
soundtrack, effects) carry clips on a timeline, and the clips are routed
through a mixer. This project models six small, sequential parts of that
system as immutable datatypes and pure functions, and proves properties of
them:

- **the view-side timeline store** (`ViewData`, from `ViewDataImpl`). It maps
  each channel to an ordered clip list and keeps a set of sections. Channels,
  clips and sections are equal exactly when their titles are. So the map is
  keyed by title, and the section set holds at most one section per title.
  Re-adding a channel keeps the map's original key object and gives it an
  empty clip list, as `HashMap.put` does.
- **the processing-chain builder** (`ProcessingUnits`). It keeps an ordered
  effect list and at most one sidechain. `build` refuses an empty list.
- **the channel factory** (`ChannelFactory`). It holds fixed recipes on top of
  the builder. The sidechained recipe can never succeed.
- **the clip player** (`ClipPlayers`). This is a state machine over paused,
  position, cut-active and cut-time, with stop-and-rewind and a guarded
  `getCutTime`.
- **the role composite-key parser** (`RoleKeys`, on top of `JavaStrings`).
  `JavaStrings` models Java's `String.split` exactly for one-character
  delimiters, including the removal of trailing empty strings. A round trip
  is proved for keys of the shape `p0=T,p1=Optional[S],p2=Y]`, whatever
  the field names.
- **the controller** (`Controller`). It covers the type-string mappings and
  the state machine over the current project file. It also covers the
  speaker rubric (`Rubric`), which has the `addPerson` guard and the one-digit
  filter on the speaker-code field.

Java exceptions are values of `Outcomes.Result`. Nullable references and
`Optional` are `Outcomes.Option`. I/O is replaced by its outcome, passed in
as a parameter:

- the settings read;
- the project loader;
- the downloader and settings writes;
- the Beads sample load;
- the fresh UGen or manager a constructor allocates.

Java `double`/`float` values are Dafny `real`s, because no arithmetic is done
on them here.

Sections are identified by title: adding a section whose title is already
present is silently ignored, and re-adding a channel replaces its clips. The
timeline manager (`daw.manager.Manager`) is an opaque token here.

## Model

| member | source | states |
|---|---|---|
| ViewData.NewChannel | app/src/main/java/view/common/ViewDataImpl.java:126-133 | a new channel has the given title and group, is neither muted nor solo, and has an empty effect list whatever list is passed |
| ViewData.NewChannelDropsEffects | app/src/main/java/view/common/ViewDataImpl.java:130-132 | a channel built with a one-effect list does not have that effect |
| ViewData.NewChannelIntended | app/src/main/java/view/common/ViewDataImpl.java:126-133 | corrected constructor: the given effect list, when present, becomes the channel's effect list |
| ViewData.NewClip | app/src/main/java/view/common/ViewDataImpl.java:223-233 | construction throws IllegalArgument exactly when only one of content position and content duration is present; otherwise the clip carries all given values, and isEmpty holds exactly when content is absent |
| ViewData.AddChannel | app/src/main/java/view/common/ViewDataImpl.java:29-31 | the title maps to an empty clip list and other channels are unchanged; an existing title keeps its original channel object and loses its clips; the store invariant is preserved |
| ViewData.RemoveChannel | app/src/main/java/view/common/ViewDataImpl.java:34-36 | exactly the title-equal channel disappears; removing an absent channel changes nothing |
| ViewData.GetChannel | app/src/main/java/view/common/ViewDataImpl.java:58-61 | returns a channel exactly when one with that title is stored, and that channel has the title; otherwise null |
| ViewData.AddClip | app/src/main/java/view/common/ViewDataImpl.java:39-44 | an unknown channel throws IllegalArgument; otherwise the old list is kept as a prefix with the clip appended last, no title check is made, and other channels and sections are untouched |
| ViewData.RemoveClip | app/src/main/java/view/common/ViewDataImpl.java:47-55 | throws IllegalArgument exactly when the channel is unknown or holds no title-equal clip; otherwise exactly the first title-equal clip is removed, and other channels are untouched |
| ViewData.GetClip | app/src/main/java/view/common/ViewDataImpl.java:64-68 | an unknown channel throws NullPointer; otherwise returns the first clip with the title, or null exactly when none has it |
| ViewData.AddThenRemoveClip | app/src/main/java/view/common/ViewDataImpl.java:39-55 | removing a just-added clip whose title was new on its channel restores the store |
| ViewData.AddClipKeepsDuplicates | app/src/main/java/view/common/ViewDataImpl.java:39-44 | adding the same clip twice leaves two copies at the end of the list |
| ViewData.AddSection | app/src/main/java/view/common/ViewDataImpl.java:98-100 | the section titles grow by the new title; an existing title leaves the store unchanged; title uniqueness is preserved |
| ViewData.RemoveSection | app/src/main/java/view/common/ViewDataImpl.java:108-110 | exactly the sections with that title disappear, and every other section stays |
| ViewData.AddThenRemoveSection | app/src/main/java/view/common/ViewDataImpl.java:98-110 | removing a section just added under a new title restores the store |
| ProcessingUnits.Sidechain | app/src/main/java/daw/core/audioprocessing/BasicProcessingUnitBuilder.java:29-34 | the effect list is unchanged; the sidechain is set only if none was set before |
| ProcessingUnits.LowPass | app/src/main/java/daw/core/audioprocessing/BasicProcessingUnitBuilder.java:43-46 | exactly one low-pass filter is appended after the existing effects, and the sidechain is kept |
| ProcessingUnits.HighPass | app/src/main/java/daw/core/audioprocessing/BasicProcessingUnitBuilder.java:55-58 | exactly one high-pass filter is appended after the existing effects, and the sidechain is kept |
| ProcessingUnits.AddReverb | app/src/main/java/daw/core/audioprocessing/BasicProcessingUnitBuilder.java:66-69 | exactly one reverb is appended after the existing effects, and the sidechain is kept |
| ProcessingUnits.AddGate | app/src/main/java/daw/core/audioprocessing/BasicProcessingUnitBuilder.java:77-80 | exactly one gate is appended after the existing effects, and the sidechain is kept |
| ProcessingUnits.AddCompressor | app/src/main/java/daw/core/audioprocessing/BasicProcessingUnitBuilder.java:88-91 | exactly one compressor is appended after the existing effects, and the sidechain is kept |
| ProcessingUnits.Build | app/src/main/java/daw/core/audioprocessing/BasicProcessingUnitBuilder.java:99-106 | throws IllegalState exactly when no effect was added; otherwise the unit has the builder's effects in order and a sidechain exactly when one was set |
| ProcessingUnits.RunMatchesCalls | app/src/main/java/daw/core/audioprocessing/BasicProcessingUnitBuilder.java:29-91 | after any call sequence, the effects are the effect calls in call order, and the sidechain is the first sidechain call's |
| ProcessingUnits.BuildAfterCalls | app/src/main/java/daw/core/audioprocessing/BasicProcessingUnitBuilder.java:17-106 | building after any call sequence fails exactly when it made no effect call, with or without a sidechain call; otherwise the unit holds those effects and the first sidechain |
| ChannelFactory.Basic | app/src/main/java/daw/core/channel/BasicChannelFactory.java:17-20 | an AUDIO channel at volume 40 of 100, with a default panner and no processing unit |
| ChannelFactory.Gated | app/src/main/java/daw/core/channel/BasicChannelFactory.java:23-29 | always succeeds with an AUDIO channel at volume 40 of 100 whose only unit is a single one-channel gate |
| ChannelFactory.Sidechained | app/src/main/java/daw/core/channel/BasicChannelFactory.java:32-38 | always throws IllegalState, because the builder gets a sidechain but no effect |
| ChannelFactory.ReturnChannel | app/src/main/java/daw/core/channel/BasicChannelFactory.java:41-47 | always succeeds with a RETURN channel at volume 40 of 100 whose only unit is one high-pass filter at cutoff 100 |
| ChannelFactory.MasterChannel | app/src/main/java/daw/core/channel/BasicChannelFactory.java:50-56 | always succeeds with a MASTER channel at volume 40 of 100 whose only unit is one compressor |
| ClipPlayers.CreateClipPlayer | app/src/main/java/daw/core/clip/SampleClipPlayerFactory.java:16-23 | a clip whose class is not exactly SampleClip throws IllegalArgument before anything is loaded or connected; a failed load throws; on success the player's UGen is the one new source of the channel, and the player holds the loaded UGen and the clip's content position, and is paused there with the cut off |
| ClipPlayers.CreateClipPlayerWithActiveCut | app/src/main/java/daw/core/clip/SampleClipPlayerFactory.java:26-30 | fails exactly as createClipPlayer does; on success the cut is active at t while the position stays at the content position, and only a stop moves it to t; the player holds the loaded UGen and the clip's content position, and is connected to the channel exactly as createClipPlayer connects it |
| ClipPlayers.NewSampleClipPlayer | app/src/main/java/daw/core/clip/SampleClipPlayerFactory.java:39-46 | a new player is paused, positioned at the clip's content position, with the cut inactive |
| ClipPlayers.Play | app/src/main/java/daw/core/clip/SampleClipPlayerFactory.java:49-51 | the player is no longer paused and nothing else changes |
| ClipPlayers.Pause | app/src/main/java/daw/core/clip/SampleClipPlayerFactory.java:54-56 | the player is paused and nothing else changes |
| ClipPlayers.Stop | app/src/main/java/daw/core/clip/SampleClipPlayerFactory.java:59-66 | pauses and rewinds to the cut time if the cut is active, otherwise to the content position; the cut is untouched |
| ClipPlayers.SetPlaybackPosition | app/src/main/java/daw/core/clip/SampleClipPlayerFactory.java:69-71 | the position becomes the given time and nothing else changes |
| ClipPlayers.SetCut | app/src/main/java/daw/core/clip/SampleClipPlayerFactory.java:79-82 | stores the time and activates the cut, leaving playback state alone |
| ClipPlayers.DisableCut | app/src/main/java/daw/core/clip/SampleClipPlayerFactory.java:85-87 | deactivates the cut and keeps the stored time |
| ClipPlayers.CutTime | app/src/main/java/daw/core/clip/SampleClipPlayerFactory.java:105-110 | throws IllegalState exactly when the cut is inactive; otherwise returns the stored cut time |
| ClipPlayers.CutTimeAfterHistory | app/src/main/java/daw/core/clip/SampleClipPlayerFactory.java:79-110 | after any history of calls, getCutTime returns the most recent setCut time, or throws if a disableCut came later |
| ClipPlayers.HistoryKeepsClip | app/src/main/java/daw/core/clip/SampleClipPlayerFactory.java:34-35 | no call changes the player's UGen or its content position |
| JavaStrings.Split | app/src/main/java/controller/storing/deserialization/RoleKeyDeserializer.java:38-41 | String.split on a one-character class: a string without delimiters is its own single piece; otherwise the result is the pieces between delimiters with exactly the trailing empty pieces removed; every piece is delimiter-free |
| JavaStrings.PiecesJoin | app/src/main/java/controller/storing/deserialization/RoleKeyDeserializer.java:38-41 | joining the pieces between delimiters on their delimiter gives back the string |
| JavaStrings.SplitJoin | app/src/main/java/controller/storing/deserialization/RoleKeyDeserializer.java:38-41 | the split result joined on its delimiter gives back the string, less the run of delimiters at its end that the dropped empty pieces stood for |
| RoleKeys.GetType | app/src/main/java/controller/storing/deserialization/RoleKeyDeserializer.java:44-52 | "SPEECH" maps to SPEECH and "EFFECTS" to EFFECTS, in both directions; every other token, "SOUNDTRACK" included, maps to SOUNDTRACK |
| RoleKeys.ExtractValues | app/src/main/java/controller/storing/deserialization/RoleKeyDeserializer.java:37-42 | yields three values or throws IndexOutOfBounds; fewer than three comma fields always throws |
| RoleKeys.DeserializeKey | app/src/main/java/controller/storing/deserialization/RoleKeyDeserializer.java:16-42 | malformed keys throw IndexOutOfBounds: fewer than three comma fields, no "=" in the first, second or third field, or a speaker value with neither "." nor "["; a parsed title has no "," or "="; a parsed speaker is never "empty" and has no reserved character |
| RoleKeys.ExtractedPlain | app/src/main/java/controller/storing/deserialization/RoleKeyDeserializer.java:38-41 | the extracted title has no "," or "=", and the speaker token has none of ", = . [ ]" |
| RoleKeys.KeyValues | app/src/main/java/controller/storing/deserialization/RoleKeyDeserializer.java:38-41 | from a key `p0=T,p1=Optional[S],p2=Y]` with any field names free of "," and "=", a non-empty T free of "," and "=", and a non-empty Y free of ",", "=" and "]", the values read are T, S ("empty" for Optional.empty) and Y |
| RoleKeys.KeyRoundTrip | app/src/main/java/controller/storing/deserialization/RoleKeyDeserializer.java:16-42 | parsing such a key, whatever its field names, gives the role with title T, speaker S (none for Optional.empty or a speaker named "empty") and the type Y maps to |
| RoleKeys.TypeNameRoundTrip | app/src/main/java/controller/storing/deserialization/RoleKeyDeserializer.java:44-52 | each role type's enum name maps back to that type |
| RoleKeys.RoundTrip | app/src/main/java/controller/storing/deserialization/RoleKeyDeserializer.java:16-42 | a role whose title is non-empty and free of "," and "=", and whose speaker (if any) is non-empty, not "empty", and free of ", = . [ ]", parses back unchanged from its key in the example layout `KeyOf` |
| RoleKeys.SpeakerNamedEmptyIsLost | app/src/main/java/controller/storing/deserialization/RoleKeyDeserializer.java:18-25 | a speaker literally named "empty" is read back as no speaker |
| RoleKeys.EmptyTitleRejected | app/src/main/java/controller/storing/deserialization/RoleKeyDeserializer.java:39 | a key with an empty title throws, because split drops the trailing empty piece after "=" |
| Controller.ChannelTypeOf | app/src/main/java/controller/general/ControllerImpl.java:116-123 | "Speaker" is SPEECH and "Effect" is EFFECTS, in both directions; anything else is SOUNDTRACK |
| Controller.ClipTypeOf | app/src/main/java/controller/general/ControllerImpl.java:133-140 | "Speaker" is SPEECH and "Effects" (plural) is EFFECTS, in both directions; anything else is SOUNDTRACK |
| Controller.EffectStringsDisagree | app/src/main/java/controller/general/ControllerImpl.java:116-140 | "Effect" makes an effects channel but a soundtrack clip, and "Effects" the reverse |
| Controller.DescriptionOf | app/src/main/java/controller/general/ControllerImpl.java:124 | an empty description is absent, any other is present unchanged |
| Controller.NewPlanningChannel | app/src/main/java/controller/general/ControllerImpl.java:115-125 | the manager receives the mapped role type, the title, and the description (absent exactly when empty) |
| Controller.NewPlanningClip | app/src/main/java/controller/general/ControllerImpl.java:131-143 | the manager receives the mapped part type, title, channel, time, the description (absent exactly when empty), and the content file exactly as given (absent exactly when null) |
| Controller.ClipRequestIgnoresDuration | app/src/main/java/controller/general/ControllerImpl.java:131-143 | the duration argument does not reach the manager |
| Controller.NewProject | app/src/main/java/controller/general/ControllerImpl.java:41-54 | a failed settings read resets only the manager; a blank name clears the project; any other name becomes the current project, with the loaded manager, or a new one when loading fails |
| Controller.Init | app/src/main/java/controller/general/ControllerImpl.java:33-36 | starting from no project: a failed settings read or a blank template name leaves no project and the new manager; any other name becomes the current project, with the loaded manager or, when loading fails, the new one; the downloader is bound to that resulting manager |
| Controller.Save | app/src/main/java/controller/general/ControllerImpl.java:67-81 | no current project throws IllegalState without writing; otherwise the downloader writes to the current project and a failed write throws Downloading; the state never changes |
| Controller.SaveWithName | app/src/main/java/controller/general/ControllerImpl.java:89-92 | the file becomes the current project even when the write then fails |
| Controller.OpenProject | app/src/main/java/controller/general/ControllerImpl.java:100-107 | manager and current project are replaced only on a successful load; a failed load throws Loading and leaves the state unchanged |
| Controller.SetTemplateProject | app/src/main/java/controller/general/ControllerImpl.java:159-170 | no current project throws IllegalState; otherwise the project's absolute path is written to the settings file (absolute whenever the working directory is), and a failed write throws Downloading |
| Controller.AbsolutePath | app/src/main/java/controller/general/ControllerImpl.java:165 | File.getAbsolutePath on Unix: an absolute path is kept; a relative one is resolved under the working directory, so the result is the working directory, one "/" (none when the working directory is the root), then the path |
| Controller.HistoryProject | app/src/main/java/controller/general/ControllerImpl.java:41-107 | after any history of calls, the current project is the one the latest project-setting call left, and the downloader's manager never changes |
| Controller.SaveAfterSaveWithName | app/src/main/java/controller/general/ControllerImpl.java:67-92 | after saveWithName(f), whether or not it succeeded, save writes to f and succeeds exactly when its write does |
| Controller.OpenThenSaveWritesStaleManager | app/src/main/java/controller/general/ControllerImpl.java:33-36 | after opening a project with a different manager, save writes the construction-time manager, not the opened one |
| Controller.SaveWritesConstructionManager | app/src/main/java/controller/general/ControllerImpl.java:33-107 | after construction and any history of calls, every save writes the construction-time manager, whatever manager is current |
| Controller.StaleManagerExample | app/src/main/java/controller/general/ControllerImpl.java:33-107 | a concrete run: built with manager 0, opening manager 1 from b.json, save writes manager 0 into b.json |
| Controller.SaveIntended | app/src/main/java/controller/general/ControllerImpl.java:67-81 | corrected save: the write carries the controller's current manager |
| Controller.OpenThenSaveIntendedWritesOpened | app/src/main/java/controller/general/ControllerImpl.java:100-107 | with the corrected save, a project just opened is written back with the manager it was loaded as |
| Rubric.AddPerson | app/src/main/java/view/planning/RubricController.java:76-84 | the list grows by one exactly when code, first name and last name are all non-empty; earlier entries are kept as a prefix and the new entry carries the three values |
| Rubric.AddPersonAcceptsDuplicateCode | app/src/main/java/view/planning/RubricController.java:79-83 | a code already in the list is accepted again |
| Rubric.AcceptsChange | app/src/main/java/view/planning/RubricController.java:29-32 | a change passes exactly when its text is one ASCII digit; deletions and multi-character pastes are rejected |
| Rubric.TypedDigitAppends | app/src/main/java/view/planning/RubricController.java:29-32 | a digit typed at the end of the field is appended to it |
| Rubric.Edit | app/src/main/java/view/planning/RubricController.java:29-32 | a rejected change leaves the field as it was, and an all-digit field stays all digits |
| Rubric.CodeFieldHoldsDigits | app/src/main/java/view/planning/RubricController.java:29-32 | after any sequence of edits from empty, the code field holds only digits and is no longer than the number of edits |

## Findings

| source | as written | input that shows it | evidently intended | confidence | as-written member | corrected member |
|---|---|---|---|---|---|---|
| app/src/main/java/controller/general/ControllerImpl.java:35 | the downloader gets the manager present at construction; openProject replaces the controller's manager but not the downloader's | build with manager 0, open b.json loading manager 1, save: manager 0 is written into b.json | save writes the manager of the project currently open | medium, not executed (ProjectDownloaderImpl is not part of this model; only the manager it is constructed with is modelled) | Controller.SaveWritesConstructionManager | Controller.SaveIntended |
| app/src/main/java/view/common/ViewDataImpl.java:130-132 | `effects.addAll(effects)` appends the parameter to itself, because the parameter shadows the field | a channel built with the list [reverb] has no effects | `this.effects.addAll(effects)` | high, not executed | ViewData.NewChannelDropsEffects | ViewData.NewChannelIntended |

The transitions of `Controller` model `save` as written. The corrected
`SaveIntended` stands beside them, with its property proved. Nothing else in
the model builds a view channel, so `NewChannelIntended` is used only by its
own contract.

## Left out

- JavaFX listeners, observable wrappers and view-node sets in `ViewDataImpl`: these are display glue (`addChannelsDataListener`, `addClipsDataListener`, `getUnmodifiable*`, `addToViewAll`). Channel's `setMute`/`setSolo` and the FX-view accessors are plain setters and are also left out.
- ViewData.NewChannel: the caller's list also grows, because it is appended to itself, and an unmodifiable list would throw UnsupportedOperationException. Only the new channel is modelled.
- ViewData.GetChannel: that the result carries the requested title is stated for stores satisfying `Valid`, which every operation preserves. The Java stream filter checks the title directly.
- Null arguments: null titles, descriptions, doubles and texts are left out. Dafny strings and reals are never null, and the model assumes callers pass none.
- `BasicProcessingUnit`, `Sidechaining` and the effect classes are not part of this model. A unit is the record of its effects and sidechain. Whether it shares the builder's list is not modelled.
- Effect DSP and parameters (`Gate`, `DigitalReverb`, `RPEffect`): these are library wrappers with float parameters. An effect is identified only by its kind, channels and cutoff.
- `BasicChannel`, `BasicVolume` and `Panner` internals are not part of this model. A channel records its volume pair, type, added units and connected sources.
- `SamplePlayer` internals, such as position clamping and loop type: a player is the record {paused, position}. Sample loading is an outcome parameter.
- `getPlaybackPosition`, `isPaused`, `isCutActive` and `getUGen` are field reads of the player record.
- `ControllerImpl`'s view sync: the `planningController` and `App.getData()` calls use view constructors that do not exist in this version of `ViewDataImpl`.
- `ControllerImpl`'s calls into `Manager`: `addChannel`, `addClip`, `getChannelList`, `getClipList`, `getClipTime` and `getClipDuration` are in code that is not part of this model. The model stops at the request handed to the manager.
- `updateView` and `setPlanningController` are left out: one is empty and the other only stores a reference.
- The `SpeechRole`, `SoundtrackRole` and `EffectsRole` constructors are not part of this model. A role is its title, optional speaker and type.
- The serializer that writes role keys is not part of this model. `RoleKeys.KeyWith` is the key shape the parser is written against, for any field names, with `Optional[S]` / `Optional.empty` for the speaker; `RoleKeys.KeyOf` is one example layout with fixed field names; the names the program really writes are not modelled.
- Controller.AbsolutePath: follows the Unix file system; Windows drive letters and the normalisation java.io.File applies to a path when it is built (collapsing repeated "/", dropping a trailing "/") are not modelled, and the path is taken as already normal.
- The rubric's table binding is display glue. `TypeInto` skips a change whose range does not fit the field, which JavaFX never produces.
- `PlanningController`, `EditChannelsView`, `RPMixer` and `RPSection` are left out. They are dialogs, display formatting, or interfaces whose implementation is not part of this model.
- The timeline manager, mute/solo controller and transport engine are left out: their code is not part of this model.
