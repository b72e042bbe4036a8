/**
 The application controller (controller/general/ControllerImpl.java): the
 type-string mappings behind new planning channels and clips, and the state
 machine over the current project file. The timeline manager, the loader,
 the downloader and the settings file are collaborators; their outcomes are
 parameters.
 */
module Controller {
  import opened Outcomes
  import opened Planning

  /** A java.io.File, identified by its path. */
  datatype File = File(path: string)

  /** An opaque timeline manager (daw.manager.Manager). */
  datatype Manager = Manager(id: nat)

  /**
   The controller's state: the manager, the current project file (null
   until the project is saved or opened), and the manager the downloader
   was given when the controller was built.
   */
  datatype State = State(manager: Manager, currentProject: Option<File>, downloaderManager: Manager)

  /** A write the controller asks for. */
  datatype Write = ProjectWrite(file: File, manager: Manager) | SettingsWrite(path: string)

  /** One transition: the state after it, its outcome, and the write it attempted. */
  datatype Step = Step(after: State, outcome: Result<()>, write: Option<Write>)

  // ---------------------------------------------------------------- type strings

  /** `newPlanningChannel`'s mapping: "Speaker", "Effect", anything else. */
  function ChannelTypeOf(kind: string): (t: RoleType)
    ensures t == Speech <==> kind == "Speaker"
    ensures t == Effects <==> kind == "Effect"
    ensures t == Soundtrack <==> kind != "Speaker" && kind != "Effect"
  {
    if kind == "Speaker" then Speech
    else if kind == "Effect" then Effects
    else Soundtrack
  }

  /** `newPlanningClip`'s mapping: "Speaker", "Effects" (plural), anything else. */
  function ClipTypeOf(kind: string): (t: PartType)
    ensures t == SpeechPart <==> kind == "Speaker"
    ensures t == EffectsPart <==> kind == "Effects"
    ensures t == SoundtrackPart <==> kind != "Speaker" && kind != "Effects"
  {
    if kind == "Speaker" then SpeechPart
    else if kind == "Effects" then EffectsPart
    else SoundtrackPart
  }

  /** The same "Effect" string makes an effects channel but a soundtrack clip. */
  lemma EffectStringsDisagree()
    ensures ChannelTypeOf("Effect") == Effects && ClipTypeOf("Effect") == SoundtrackPart
    ensures ChannelTypeOf("Effects") == Soundtrack && ClipTypeOf("Effects") == EffectsPart
  {
  }

  /** An empty description becomes an absent Optional. */
  function DescriptionOf(description: string): (d: Option<string>)
    ensures d.None? <==> description == ""
    ensures d.Some? ==> d.value == description
  {
    if description == "" then None else Some(description)
  }

  /** What `newPlanningChannel` asks the manager to add. */
  datatype ChannelRequest = ChannelRequest(kind: RoleType, title: string, description: Option<string>)

  /** What `newPlanningClip` asks the manager to add. */
  datatype ClipRequest = ClipRequest(
    kind: PartType,
    title: string,
    description: Option<string>,
    channel: string,
    time: real,
    content: Option<File>)

  function NewPlanningChannel(kind: string, title: string, description: string): (r: ChannelRequest)
    ensures r.kind == ChannelTypeOf(kind) && r.title == title
    ensures r.description.None? <==> description == ""
    ensures r.description.Some? ==> r.description.value == description
  {
    ChannelRequest(ChannelTypeOf(kind), title, DescriptionOf(description))
  }

  /**
   `newPlanningClip`; `content` is None for a null file. The duration is
   not part of what the manager receives.
   */
  function NewPlanningClip(
    kind: string,
    title: string,
    description: string,
    channel: string,
    time: real,
    duration: real,
    content: Option<File>): (r: ClipRequest)
    ensures r.kind == ClipTypeOf(kind) && r.title == title && r.channel == channel && r.time == time
    ensures r.description.None? <==> description == ""
    ensures r.description.Some? ==> r.description.value == description
    ensures r.content == content
  {
    ClipRequest(ClipTypeOf(kind), title, DescriptionOf(description), channel, time, content)
  }

  /** The clip request does not depend on the duration. */
  lemma ClipRequestIgnoresDuration(
    kind: string, title: string, description: string, channel: string,
    time: real, d1: real, d2: real, content: Option<File>)
    ensures NewPlanningClip(kind, title, description, channel, time, d1, content)
         == NewPlanningClip(kind, title, description, channel, time, d2, content)
  {
  }

  // ---------------------------------------------------------------- project state

  /** Character.isWhitespace. */
  predicate IsWhitespace(c: char) {
    || c == ' ' || c == '\t' || c == '\n' || c == '\r'
    || c == '\U{000B}' || c == '\U{000C}'
    || ('\U{001C}' <= c <= '\U{001F}')
    || c == '\U{1680}'
    || ('\U{2000}' <= c <= '\U{200A}' && c != '\U{2007}')
    || c == '\U{2028}' || c == '\U{2029}' || c == '\U{205F}' || c == '\U{3000}'
  }

  /** String.isBlank: empty or only whitespace. */
  predicate IsBlank(s: string) {
    forall i :: 0 <= i < |s| ==> IsWhitespace(s[i])
  }

  /**
   `newProject()`. `settings` is the outcome of reading the template file
   name from the settings file, `load` the outcome of loading that file and
   `newManager` the new empty manager. A failed read or load leaves the new
   manager; a failed load keeps the template file as the current project.
   */
  function NewProject(c: State, settings: Result<string>, load: Result<Manager>, newManager: Manager): (r: State)
    ensures r.downloaderManager == c.downloaderManager
    ensures settings.Throw? ==> r.currentProject == c.currentProject && r.manager == newManager
    ensures settings.Ok? && IsBlank(settings.value) ==> r.currentProject.None? && r.manager == newManager
    ensures settings.Ok? && !IsBlank(settings.value) ==> r.currentProject == Some(File(settings.value))
    ensures settings.Ok? && !IsBlank(settings.value) ==> r.manager == (if load.Ok? then load.value else newManager)
  {
    match settings
    case Throw(_) => c.(manager := newManager)
    case Ok(name) =>
      if IsBlank(name) then
        c.(currentProject := None, manager := newManager)
      else
        var c' := c.(currentProject := Some(File(name)));
        match load
        case Ok(m) => c'.(manager := m)
        case Throw(_) => c'.(manager := newManager)
  }

  /**
   The constructor: a new project from the template, then a downloader
   bound to the manager that results.
   */
  function Init(settings: Result<string>, load: Result<Manager>, newManager: Manager): (r: State)
    ensures r.downloaderManager == r.manager
    ensures settings.Throw? ==> r.currentProject.None? && r.manager == newManager
    ensures settings.Ok? && IsBlank(settings.value) ==> r.currentProject.None? && r.manager == newManager
    ensures settings.Ok? && !IsBlank(settings.value) ==> r.currentProject == Some(File(settings.value))
    ensures settings.Ok? && !IsBlank(settings.value) ==> r.manager == (if load.Ok? then load.value else newManager)
  {
    var c := NewProject(State(newManager, None, newManager), settings, load, newManager);
    c.(downloaderManager := c.manager)
  }

  /**
   `save()`: no current project means IllegalState and no write; otherwise
   the downloader writes to the current project, and a failed write is a
   DownloadingException. The state never changes.
   */
  function Save(c: State, writeOk: bool): (r: Step)
    ensures r.after == c
    ensures c.currentProject.None? ==> r.outcome == Throw(IllegalState) && r.write.None?
    ensures c.currentProject.Some? ==> r.write == Some(ProjectWrite(c.currentProject.value, c.downloaderManager))
    ensures c.currentProject.Some? ==> (r.outcome.Ok? <==> writeOk)
    ensures c.currentProject.Some? && !writeOk ==> r.outcome == Throw(Downloading)
  {
    match c.currentProject
    case None => Step(c, Throw(IllegalState), None)
    case Some(f) =>
      Step(c, if writeOk then Ok(()) else Throw(Downloading), Some(ProjectWrite(f, c.downloaderManager)))
  }

  /**
   `saveWithName(f)`: `f` becomes the current project before the write is
   attempted, so it stays current even when the write fails.
   */
  function SaveWithName(c: State, f: File, writeOk: bool): (r: Step)
    ensures r.after.currentProject == Some(f)
    ensures r.after.manager == c.manager && r.after.downloaderManager == c.downloaderManager
    ensures r.write == Some(ProjectWrite(f, c.downloaderManager))
    ensures r.outcome.Ok? <==> writeOk
    ensures !writeOk ==> r.outcome == Throw(Downloading)
  {
    var c' := c.(currentProject := Some(f));
    Save(c', writeOk)
  }

  /**
   `openProject(f)`: manager and current project are replaced only when
   loading succeeds; otherwise a LoadingException and nothing changes.
   */
  function OpenProject(c: State, f: File, load: Result<Manager>): (r: Step)
    ensures r.write.None?
    ensures r.outcome.Ok? <==> load.Ok?
    ensures load.Ok? ==> r.after == c.(manager := load.value, currentProject := Some(f))
    ensures load.Throw? ==> r.after == c && r.outcome == Throw(Loading)
  {
    match load
    case Ok(m) => Step(c.(manager := m, currentProject := Some(f)), Ok(()), None)
    case Throw(_) => Step(c, Throw(Loading), None)
  }

  /** A path that starts at the file-system root. */
  predicate IsAbsolute(path: string) {
    |path| > 0 && path[0] == '/'
  }

  /**
   java.io.File.getAbsolutePath on a Unix file system: an absolute path is
   kept, any other is resolved against the working directory `userDir`
   (the `user.dir` property), with a "/" between them unless `userDir` is
   the root itself.
   */
  function AbsolutePath(userDir: string, path: string): (r: string)
    ensures IsAbsolute(path) ==> r == path
    ensures path == "" ==> r == userDir
    ensures |r| >= |path| && r[|r| - |path|..] == path
    ensures !IsAbsolute(path) ==> |r| >= |userDir| && r[..|userDir|] == userDir
    ensures IsAbsolute(userDir) ==> IsAbsolute(r)
    ensures !IsAbsolute(path) && path != "" && userDir != "/" ==> |r| == |userDir| + 1 + |path| && r[|userDir|] == '/'
    ensures !IsAbsolute(path) && userDir == "/" ==> |r| == 1 + |path|
  {
    if IsAbsolute(path) then path
    else if path == "" then userDir
    else if userDir == "/" then userDir + path
    else userDir + "/" + path
  }

  /**
   `setTemplateProject()`: no current project means IllegalState; otherwise
   the current project's absolute path goes to the settings file.
   */
  function SetTemplateProject(c: State, userDir: string, writeOk: bool): (r: Step)
    ensures r.after == c
    ensures c.currentProject.None? ==> r.outcome == Throw(IllegalState) && r.write.None?
    ensures c.currentProject.Some? ==> r.write == Some(SettingsWrite(AbsolutePath(userDir, c.currentProject.value.path)))
    ensures c.currentProject.Some? && IsAbsolute(userDir) ==> r.write.Some? && IsAbsolute(r.write.value.path)
    ensures c.currentProject.Some? ==> (r.outcome.Ok? <==> writeOk)
    ensures c.currentProject.Some? && !writeOk ==> r.outcome == Throw(Downloading)
  {
    match c.currentProject
    case None => Step(c, Throw(IllegalState), None)
    case Some(f) =>
      Step(c, if writeOk then Ok(()) else Throw(Downloading), Some(SettingsWrite(AbsolutePath(userDir, f.path))))
  }

  // ---------------------------------------------------------------- histories

  /** One call on the controller, with its collaborators' outcomes. */
  datatype Op =
    | NewProjectOp(settings: Result<string>, load: Result<Manager>, newManager: Manager)
    | SaveOp(writeOk: bool)
    | SaveWithNameOp(file: File, writeOk: bool)
    | OpenProjectOp(file: File, load: Result<Manager>)
    | SetTemplateOp(userDir: string, writeOk: bool)

  function Apply(c: State, op: Op): State {
    match op
    case NewProjectOp(s, l, m) => NewProject(c, s, l, m)
    case SaveOp(w) => Save(c, w).after
    case SaveWithNameOp(f, w) => SaveWithName(c, f, w).after
    case OpenProjectOp(f, l) => OpenProject(c, f, l).after
    case SetTemplateOp(u, w) => SetTemplateProject(c, u, w).after
  }

  /** The state after a history of calls, oldest first. */
  function Replay(c: State, ops: seq<Op>): State
    decreases |ops|
  {
    if ops == [] then c else Apply(Replay(c, ops[..|ops| - 1]), ops[|ops| - 1])
  }

  /**
   Reference: the current project the latest call that sets one left —
   None when no call of the history sets it.
   */
  function LatestProject(ops: seq<Op>): Option<Option<File>>
    decreases |ops|
  {
    if ops == [] then None
    else
      var op := ops[|ops| - 1];
      if op.SaveWithNameOp? then Some(Some(op.file))
      else if op.OpenProjectOp? && op.load.Ok? then Some(Some(op.file))
      else if op.NewProjectOp? && op.settings.Ok? then
        (if IsBlank(op.settings.value) then Some(None) else Some(Some(File(op.settings.value))))
      else LatestProject(ops[..|ops| - 1])
  }

  /**
   After any history the current project is the one the latest setting
   call left, and the downloader still holds the manager it was built with.
   */
  lemma {:induction false} HistoryProject(c: State, ops: seq<Op>)
    ensures LatestProject(ops).None? ==> Replay(c, ops).currentProject == c.currentProject
    ensures LatestProject(ops).Some? ==> Replay(c, ops).currentProject == LatestProject(ops).value
    ensures Replay(c, ops).downloaderManager == c.downloaderManager
    decreases |ops|
  {
    if ops != [] {
      HistoryProject(c, ops[..|ops| - 1]);
    }
  }

  /** Once saved under a name, the project can be saved again to that file. */
  lemma SaveAfterSaveWithName(c: State, f: File, first: bool, second: bool)
    ensures Save(SaveWithName(c, f, first).after, second).write == Some(ProjectWrite(f, c.downloaderManager))
    ensures Save(SaveWithName(c, f, first).after, second).outcome.Ok? <==> second
  {
  }

  // ---------------------------------------------------------------- stale downloader

  /**
   As written, the downloader keeps the manager it was built with: after
   opening another project, `save()` writes the old manager into the newly
   opened file.
   */
  lemma OpenThenSaveWritesStaleManager(c: State, f: File, m: Manager)
    requires m != c.downloaderManager
    ensures
      var afterOpen := OpenProject(c, f, Ok(m)).after;
      && afterOpen.manager == m
      && Save(afterOpen, true).write == Some(ProjectWrite(f, c.downloaderManager))
      && Save(afterOpen, true).write != Some(ProjectWrite(f, afterOpen.manager))
  {
  }

  /**
   As written, whatever history follows construction, every `save()` writes
   the manager the controller was built with, even once another project's
   manager has been opened.
   */
  lemma {:induction false} SaveWritesConstructionManager(
    settings: Result<string>, load: Result<Manager>, newManager: Manager, ops: seq<Op>, writeOk: bool)
    ensures
      var c0 := Init(settings, load, newManager);
      var c := Replay(c0, ops);
      c.currentProject.Some? ==> Save(c, writeOk).write == Some(ProjectWrite(c.currentProject.value, c0.manager))
  {
    HistoryProject(Init(settings, load, newManager), ops);
  }

  /** A concrete run: build with manager 0, open manager 1 from "b.json", save. */
  lemma StaleManagerExample()
    ensures
      var c := Init(Ok(""), Throw(IOFailure), Manager(0));
      var afterOpen := OpenProject(c, File("b.json"), Ok(Manager(1))).after;
      Save(afterOpen, true).write == Some(ProjectWrite(File("b.json"), Manager(0)))
  {
    var c := Init(Ok(""), Throw(IOFailure), Manager(0));
    assert IsBlank("");
    assert c.downloaderManager == Manager(0);
  }

  /**
   `save()` as evidently intended: the write carries the controller's
   current manager.
   */
  function SaveIntended(c: State, writeOk: bool): (r: Step)
    ensures r.after == c
    ensures c.currentProject.None? ==> r.outcome == Throw(IllegalState) && r.write.None?
    ensures c.currentProject.Some? ==> r.write == Some(ProjectWrite(c.currentProject.value, c.manager))
    ensures c.currentProject.Some? ==> (r.outcome.Ok? <==> writeOk)
  {
    match c.currentProject
    case None => Step(c, Throw(IllegalState), None)
    case Some(f) =>
      Step(c, if writeOk then Ok(()) else Throw(Downloading), Some(ProjectWrite(f, c.manager)))
  }

  /** With the intended save, a project just opened is written back as loaded. */
  lemma OpenThenSaveIntendedWritesOpened(c: State, f: File, m: Manager, writeOk: bool)
    ensures SaveIntended(OpenProject(c, f, Ok(m)).after, writeOk).write == Some(ProjectWrite(f, m))
  {
  }
}
