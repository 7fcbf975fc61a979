/**
 The audio bot's session state, changed by messages, commands and panel callbacks. A handler may
 be cut short by the settings file or by the Telegram API; `saves` and `answers` say whether it is.
 */
module BotSession {
  import opened Common
  import opened BotSettings
  import opened BotSettingsFile
  import Text

  /** Which input the bot takes the next text of a user for. */
  datatype Input = Input(target: bool, branch: bool, volume: bool)

  const SILENT := Input(false, false, false)
  const FOR_TARGET := Input(true, false, false)
  const FOR_BRANCH := Input(false, true, false)
  const FOR_VOLUME := Input(false, false, true)

  predicate AtMostOne(input: Input) {
    !(input.target && input.branch) && !(input.target && input.volume) && !(input.branch && input.volume)
  }

  const BUTTON_COMMANDS: map<string, string> :=
    map["🎯 Выбрать ТС" := "/target", "🏢 Филиал" := "/branch", "📋 Статус" := "/status", "⏹ Стоп" := "/stop"]

  const PLAIN_COMMANDS: set<string> := {"/start", "/help", "/channel", "/status", "/stop"}
  const COMMANDS: set<string> := PLAIN_COMMANDS + {"/volume", "/branch", "/target"}

  /** Lower-casing leaves the bot's own commands alone. */
  ghost predicate KeepsCommands(cfg: Config) {
    forall c :: c in COMMANDS ==> cfg.lower(c) == c
  }

  /** The index of the first `c`, or the length. */
  function IndexOf(s: string, c: char): (i: nat)
    ensures i <= |s|
    ensures forall k :: 0 <= k < i ==> s[k] != c
    ensures i < |s| ==> s[i] == c
  {
    if s == "" || s[0] == c then 0 else 1 + IndexOf(s[1..], c)
  }

  /** The command a first word stands for: without the bot's name, in lower case. */
  function Command(cfg: Config, word: string): string {
    cfg.lower(word[..IndexOf(word, '@')])
  }

  lemma OwnCommand(cfg: Config, c: string)
    requires KeepsCommands(cfg) && c in COMMANDS
    ensures Command(cfg, c) == c
  {
    hide IndexOf;
    assert '@' !in c;
    assert c[..|c|] == c;
  }

  /** The text of a message as the bot takes it. */
  function Heard(raw: string): string {
    var text := Text.Strip(raw);
    if text in BUTTON_COMMANDS then BUTTON_COMMANDS[text] else text
  }

  lemma WordsOfCommand(command: string, text: string)
    requires command in COMMANDS
    ensures var parts := Text.Words(command + " " + text);
              parts != [] && parts[0] == command && parts[1..] == Text.Words(text)
  {
    var rest := " " + text;
    assert command + " " + text == command + rest;
    assert rest[1..] == text;
    Text.WordsOfWord(command, rest);
    assert ([command] + Text.Words(text))[1..] == Text.Words(text);
  }

  /** `parts[1]` as a volume, if it is one. */
  function VolumeOf(cfg: Config, args: seq<string>): (r: Option<int>)
    ensures r.Some? ==> 1 <= r.value <= 100
  {
    if args == [] then None
    else
      var volume := cfg.parseInt(args[0]);
      if volume.Some? && 1 <= volume.value <= 100 then volume else None
  }

  /** A user's view with other audio settings; a target follows them. */
  function Adjusted(v: View, audio: Audio): View {
    View(v.branch, Some(audio),
         if v.target.Some? then Some(v.target.value.(volume := audio.volume, output := audio.output)) else None)
  }

  /** The settings in force with one of them replaced. */
  function Changed(v: View, volume: Option<int>, output: Option<string>): Audio {
    var was := Effective(v.audio);
    Audio(if volume.Some? then volume.value else was.volume, if output.Some? then output.value else was.output)
  }

  lemma AdjustedIsOk(cfg: Config, v: View, audio: Audio)
    requires ViewOk(cfg, v) && AudioOk(audio)
    ensures ViewOk(cfg, Adjusted(v, audio))
  {
  }

  lemma BranchedIsOk(cfg: Config, v: View, branch: string)
    requires ViewOk(cfg, v) && branch in cfg.vehicleMaps
    ensures ViewOk(cfg, View(Some(branch), v.audio, None))
  {
  }

  lemma ChangedIsOk(cfg: Config, v: View, volume: Option<int>, output: Option<string>)
    requires ViewOk(cfg, v)
    requires volume.Some? ==> 1 <= volume.value <= 100
    requires output.Some? ==> KnownChannel(output.value)
    ensures ViewOk(cfg, Adjusted(v, Changed(v, volume, output)))
  {
    AdjustedIsOk(cfg, v, Changed(v, volume, output));
  }

  function Clamped(volume: int): (r: int)
    ensures 1 <= r <= 100
    ensures 1 <= volume <= 100 ==> r == volume
  {
    if volume < 1 then 1 else if volume > 100 then 100 else volume
  }

  /** The action of a callback, if the panel it came from is the user's own: `audio:user:action`. */
  function ActionOf(cfg: Config, user: User, data: string): Option<string> {
    var first := IndexOf(data, ':');
    if first == |data| then None
    else
      var rest := data[first + 1..];
      var second := IndexOf(rest, ':');
      if second == |rest| || data[..first] != "audio" || rest[..second] != cfg.show(user) then None
      else Some(rest[second + 1..])
  }

  lemma SomeUser(users: set<User>)
    ensures users == {} || exists u :: u in users
  {
    if forall u :: u !in users {
      assert users == {};
    }
  }

  predicate StartsWith(s: string, prefix: string) {
    prefix <= s
  }

  // --- What each handler is to do to its user -----------------------------------------------------

  /** The user's view and awaited input afterwards, and whether the settings file is to be written. */
  datatype Outcome = Outcome(view: View, input: Input, writes: bool)

  /** `/branch`: without a name, ask for one; an unknown name changes nothing; a known one drops the target. */
  function AfterBranch(cfg: Config, v: View, input: Input, args: seq<string>, saves: bool): Outcome {
    if args == [] then Outcome(v, FOR_BRANCH, false)
    else
      var branch := NormalizeBranch(cfg, args[0]);
      if branch.None? then Outcome(v, input, false)
      else Outcome(View(branch, v.audio, None), if saves then FOR_TARGET else SILENT, true)
  }

  /** `/target`: without a number, ask for one; a text that does not parse changes nothing at all. */
  ghost function AfterTarget(cfg: Config, v: View, input: Input, args: seq<string>): Outcome {
    if args == [] then Outcome(v, if v.branch.None? then FOR_BRANCH else FOR_TARGET, false)
    else
      var target := Parsed(cfg, v, args);
      if target.None? then Outcome(v, input, false) else Outcome(WithTarget(target.value), SILENT, true)
  }

  /** `/volume`: what is no volume is asked for again. */
  function AfterVolume(cfg: Config, v: View, args: seq<string>): Outcome {
    var volume := VolumeOf(cfg, args);
    if volume.None? then Outcome(v, FOR_VOLUME, false)
    else Outcome(Adjusted(v, Audio(volume.value, Effective(v.audio).output)), SILENT, true)
  }

  ghost function AfterCommand(cfg: Config, v: View, input: Input, command: string, args: seq<string>,
      saves: bool): Outcome {
    if command in PLAIN_COMMANDS then Outcome(v, SILENT, false)
    else if command == "/volume" then AfterVolume(cfg, v, args)
    else if command == "/branch" then AfterBranch(cfg, v, input, args, saves)
    else if command == "/target" then AfterTarget(cfg, v, input, args)
    else Outcome(v, input, false)
  }

  /** A message of an allowed user: a command, the input that is awaited, or a track. */
  ghost function AfterMessage(cfg: Config, v: View, input: Input, m: Update): Outcome
    requires m.Message?
  {
    var text := Heard(m.text);
    var words := Text.Words(text);
    if StartsWith(text, "/") then AfterCommand(cfg, v, input, Command(cfg, if words == [] then "" else words[0]),
      if words == [] then [] else words[1..], m.saves)
    else if text != "" && input.volume then AfterVolume(cfg, v, words)
    else if text != "" && input.target then AfterTarget(cfg, v, input, words)
    else if text != "" && input.branch then AfterBranch(cfg, v, SILENT, words, m.saves)
    else if m.media && !m.tooLarge && v.target.None? then AfterTarget(cfg, v, input, [])
    else Outcome(v, input, false)
  }

  /** The target a message starts a job for: the user's, unless the message is something else or the user is busy. */
  function Plays(v: View, input: Input, m: Update): Option<Target>
    requires m.Message?
  {
    if Heard(m.text) == "" || (!StartsWith(Heard(m.text), "/") && input == SILENT) then
      if m.media && !m.tooLarge && !m.busy then v.target else None
    else None
  }

  datatype Action =
    | ChooseBranch(name: string) | ChooseChannel(name: string) | Quieter | Louder
    | AskBranch | AskTarget | AskVolume
    | ClearOnly   // `channel`, `status`, `stop`, an unknown channel and an unknown action

  const BRANCH_ACTION := "branch="
  const CHANNEL_ACTION := "channel="

  function Meant(action: string): (r: Action)
    ensures r.ChooseChannel? ==> KnownChannel(r.name)
  {
    if StartsWith(action, BRANCH_ACTION) then ChooseBranch(action[|BRANCH_ACTION|..])
    else if StartsWith(action, CHANNEL_ACTION) then
      if KnownChannel(action[|CHANNEL_ACTION|..]) then ChooseChannel(action[|CHANNEL_ACTION|..]) else ClearOnly
    else if action == "quieter" then Quieter
    else if action == "louder" then Louder
    else if action == "branch" then AskBranch
    else if action == "target" then AskTarget
    else if action == "volume" then AskVolume
    else ClearOnly
  }

  /** An action of the user's own panel; whatever was awaited no longer is. */
  ghost function AfterAction(cfg: Config, v: View, action: Action, saves: bool): Outcome {
    var audio := Effective(v.audio);
    match action
    case ChooseBranch(name) => AfterBranch(cfg, v, SILENT, [name], saves)
    case ChooseChannel(name) => Outcome(Adjusted(v, Audio(audio.volume, name)), SILENT, true)
    case Quieter => Outcome(Adjusted(v, Audio(Clamped(audio.volume - 5), audio.output)), SILENT, true)
    case Louder => Outcome(Adjusted(v, Audio(Clamped(audio.volume + 5), audio.output)), SILENT, true)
    case AskBranch => Outcome(v, FOR_BRANCH, false)
    case AskTarget => AfterTarget(cfg, v, SILENT, [])
    case AskVolume => Outcome(v, FOR_VOLUME, false)
    case ClearOnly => Outcome(v, SILENT, false)
  }

  /** A callback: only a panel of the user's own does anything, and only if the API answered and the panel is there. */
  ghost function AfterCallback(cfg: Config, v: View, input: Input, c: Update): Outcome
    requires c.Callback?
  {
    var action := ActionOf(cfg, c.user, c.data);
    if action.Some? && c.answers
      && c.hasPanel then AfterAction(cfg, v, Meant(action.value), c.saves) else Outcome(v, input, false)
  }

  ghost function After(cfg: Config, v: View, input: Input, update: Update): Outcome {
    if update.user !in cfg.allowed then Outcome(v, input, false)
    else if update.Message? then AfterMessage(cfg, v, input, update)
    else AfterCallback(cfg, v, input, update)
  }

  datatype Update =
    | Message(user: User, text: string, media: bool, tooLarge: bool, busy: bool, saves: bool)
    | Callback(user: User, data: string, answers: bool, hasPanel: bool, saves: bool)

  function Contents(settings: Option<File>): File {
    if settings.Some? then settings.value else []
  }

  /** An update that does not write the file leaves alone what the file is about. */
  lemma WritesWhatChanged(cfg: Config, v: View, input: Input, update: Update)
    ensures !After(cfg, v, input, update).writes ==> After(cfg, v, input, update).view == v
  {
    hide NormalizeBranch, Parsed, Command, Text.Words, Heard, ActionOf, KnownChannel;
  }

  /** The updates of one user alone decide what becomes of that user. */
  ghost function Session(cfg: Config, v: View, input: Input, updates: seq<Update>, u: User): (View, Input) {
    if updates == [] then (v, input)
    else
      var before := Session(cfg, v, input, updates[..|updates| - 1], u);
      var last := updates[|updates| - 1];
      if last.user != u then before
      else
        var o := After(cfg, before.0, before.1, last);
        (o.view, o.input)
  }

  const AT_FIRST: User -> (View, Input) := _ => (NOTHING, SILENT)
  const NOT_YET: User -> View := _ => NOTHING

  predicate AllSave(updates: seq<Update>) {
    forall i :: 0 <= i < |updates| ==> updates[i].saves
  }

  /** A user's view as of the last update, by anyone, that wrote the file and could; `was` if there is none. */
  ghost function WrittenView(cfg: Config, start: User -> (View, Input), was: User -> View, updates: seq<Update>,
      u: User): View {
    if updates == [] then was(u)
    else
      var front, last := updates[..|updates| - 1], updates[|updates| - 1];
      var (v, input) := Session(cfg, start(last.user).0, start(last.user).1, front, last.user);
      if After(cfg, v, input, last).writes && last.saves then Session(cfg, start(u).0, start(u).1, updates, u).0
      else WrittenView(cfg, start, was, front, u)
  }

  function ViewOf(branches: map<User, string>, audio: map<User, Audio>, targets: map<User, Target>, u: User): View {
    View(
      if u in branches then Some(branches[u]) else None,
      if u in audio then Some(audio[u]) else None,
      if u in targets then Some(targets[u]) else None)
  }

  class AudioBot {
    const cfg: Config
    var targets: map<User, Target>
    var userBranches: map<User, string>
    var userAudio: map<User, Audio>
    var awaitingTarget: set<User>
    var awaitingBranch: set<User>
    var awaitingVolume: set<User>
    var settings: Option<File>   // the settings file; `None` where it is missing or cannot be read
    ghost var written: User -> View   // what the file was last written for
    ghost var writer: Config          // and under which configuration, perhaps by an earlier bot

    function Of(u: User): View
      reads this`targets, this`userBranches, this`userAudio
    {
      ViewOf(userBranches, userAudio, targets, u)
    }

    function Awaits(u: User): Input
      reads this`awaitingTarget, this`awaitingBranch, this`awaitingVolume
    {
      Input(u in awaitingTarget, u in awaitingBranch, u in awaitingVolume)
    }

    /** The session invariant. */
    ghost predicate Valid()
      reads this
    {
      && WellFormed(cfg) && KeepsCommands(cfg)
      && forall u :: UserOk(u)
    }

    ghost predicate UserOk(u: User)
      reads this
    {
      && ViewOk(cfg, Of(u)) && AtMostOne(Awaits(u))
      && (Of(u) != NOTHING || Awaits(u) != SILENT ==> u in cfg.allowed)
    }

    /** The file is whole, and as of one moment: the last successful write. Without a file, nothing was written. */
    ghost predicate Kept()
      reads this`settings, this`written, this`writer
    {
      && WellFormed(writer) && SameLibrary(writer, cfg)
      && forall u :: Holds(writer, Contents(settings), u, written(u)) && ViewOk(writer, written(u))
    }

    /** That moment is now: the file says what a restart needs to know about every user. */
    ghost predicate InSync()
      reads this`settings, this`targets, this`userBranches, this`userAudio, this`written, this`writer
    {
      writer == cfg && forall u :: written(u) == Of(u) && Holds(cfg, Contents(settings), u, written(u))
    }

    /** Nobody but `user` is touched. */
    twostate predicate Only(user: User)
      reads this
    {
      forall u :: u != user ==> Of(u) == old(Of(u)) && Awaits(u) == old(Awaits(u))
    }

    /** A save that works leaves the file in step; one that fails leaves the file as it was. */
    twostate predicate Wrote(saves: bool)
      reads this
    {
      if saves then InSync() else FileKept()
    }

    twostate predicate FileKept()
      reads this
    {
      settings == old(settings) && written == old(written) && writer == old(writer)
    }

    /** `user` is as `o` says and nobody else was touched; a write of the file leaves it in step or as it was. */
    twostate predicate Became(user: User, o: Outcome, saves: bool)
      reads this
    {
      && Only(user) && Of(user) == o.view && Awaits(user) == o.input
      && if o.writes then Wrote(saves) else FileKept()
    }

    /** The invariant comes back when one user was touched and is in order. */
    twostate lemma StaysValid(user: User)
      requires old(Valid()) && Only(user) && UserOk(user)
      ensures Valid()
    {
      forall u
        ensures UserOk(u)
      {
        assert old(UserOk(u));
      }
    }

    // --- Start ----------------------------------------------------------------------------------

    constructor (c: Config, file: Option<File>)
      ensures cfg == c && settings == file && writer == c
      ensures written == NOT_YET && forall u :: Of(u) == NOTHING && Awaits(u) == SILENT
    {
      cfg, settings, writer := c, file, c;
      targets, userBranches, userAudio := map[], map[], map[];
      awaitingTarget, awaitingBranch, awaitingVolume := {}, {}, {};
      written := NOT_YET;
    }

    /** `__init__`: there is no bot exactly if reading the settings file raises what nobody handles. */
    static method Start(c: Config, file: Option<File>) returns (bot: AudioBot?)
      ensures bot == null <==> file.Some? && !Completes(c, file.value)
      ensures bot != null ==>
                fresh(bot) && bot.cfg == c && bot.settings == file && bot.written == NOT_YET && bot.writer == c
      ensures bot != null ==>
                forall u :: bot.Awaits(u) == SILENT
                  && bot.Of(u) == if file.Some? then Loaded(c, file.value, u) else NOTHING
      ensures bot != null && WellFormed(c) && KeepsCommands(c) && (file.Some? ==> Distinct(c, Keys(file.value))) ==>
              bot.Valid()
    {
      hide WellFormed, KeepsCommands, Loaded, Distinct, Completes;
      var made := new AudioBot(c, file);
      if file.None? {
        return made;
      }
      var ok := made.Load(file.value);
      if !ok {
        return null;
      }
      if WellFormed(c) && KeepsCommands(c) && Distinct(c, Keys(file.value)) {
        forall u
          ensures made.UserOk(u)
        {
          DistinctLoads(c, file.value, u);
        }
      }
      bot := made;
    }

    /** The file is what an earlier bot left. */
    ghost method Inherit(was: User -> View, whose: Config)
      requires Valid() && WellFormed(whose) && SameLibrary(whose, cfg)
      requires forall u :: Holds(whose, Contents(settings), u, was(u)) && ViewOk(whose, was(u))
      modifies this`written, this`writer
      ensures Valid() && Kept() && written == was && writer == whose
    {
      hide WellFormed, KeepsCommands, ViewOk, Holds, SameLibrary;
      written, writer := was, whose;
      forall u
        ensures UserOk(u)
      {
        assert old(UserOk(u));
      }
    }

    method Load(file: File) returns (ok: bool)
      requires forall u :: Of(u) == NOTHING
      modifies this`targets, this`userBranches, this`userAudio
      ensures ok <==> Completes(cfg, file)
      ensures ok ==> forall u :: Of(u) == Loaded(cfg, file, u)
    {
      hide Entered;
      var i := 0;
      assert file[..0] == [];
      while i < |file|
        invariant 0 <= i <= |file|
        invariant forall k :: 0 <= k < i ==> !Raises(cfg, file, k)
        invariant forall u :: Of(u) == Loaded(cfg, file[..i], u)
      {
        var user := cfg.parseInt(file[i].0);
        ghost var next := file[..i + 1];
        assert next[..|next| - 1] == file[..i] && next[|next| - 1] == file[i];
        assert forall u :: About(cfg, next, u, i) <==> user == Some(u) && u in cfg.allowed && file[i].1.Some?;
        if user.Some? && user.value in cfg.allowed && file[i].1.Some? {
          var entered := LoadEntry(user.value, file[i].1.value);
          if !entered {
            assert Raises(cfg, file, i);
            return false;
          }
        }
        i := i + 1;
      }
      assert file[..i] == file;
      ok := true;
    }

    method LoadEntry(user: User, entry: Entry) returns (ok: bool)
      modifies this`targets, this`userBranches, this`userAudio
      ensures ok <==> !entry.volume.Infinite?
      ensures ok ==> Of(user) == Entered(cfg, old(Of(user)), entry)
      ensures forall u :: u != user ==> Of(u) == old(Of(u))
    {
      hide Parsed, NormalizeBranch, AsAudio, AsNumber;
      ok := !entry.volume.Infinite?;
      if !ok {
        return;
      }
      var audio := AsAudio(cfg, entry);
      if audio.None? {
        return;
      }
      userAudio := userAudio[user := audio.value];
      var branch := AsBranch(cfg, entry);
      if branch.None? {
        return;
      }
      userBranches := userBranches[user := branch.value];
      var number := AsNumber(entry);
      if number.Some? {
        var target := ParseTarget(cfg, Of(user), [branch.value, number.value]);
        if target.Some? {
          if NormalizeBranch(cfg, branch.value).Some? {
            userBranches := userBranches[user := target.value.branch];
          }
          targets := targets[user := target.value];
        }
      }
    }

    // --- Shared steps ---------------------------------------------------------------------------

    method ClearInput(user: User)
      modifies this`awaitingTarget, this`awaitingBranch, this`awaitingVolume
      ensures Awaits(user) == SILENT
      ensures forall u :: u != user ==> Awaits(u) == old(Awaits(u))
    {
      awaitingTarget := awaitingTarget - {user};
      awaitingBranch := awaitingBranch - {user};
      awaitingVolume := awaitingVolume - {user};
    }

    /** The next text of a user whose input is not awaited is taken for the one that is named. */
    method Await(user: User, input: Input)
      requires Awaits(user) == SILENT && AtMostOne(input)
      modifies this`awaitingTarget, this`awaitingBranch, this`awaitingVolume
      ensures Awaits(user) == input
      ensures forall u :: u != user ==> Awaits(u) == old(Awaits(u))
    {
      if input.target {
        awaitingTarget := awaitingTarget + {user};
      } else if input.branch {
        awaitingBranch := awaitingBranch + {user};
      } else if input.volume {
        awaitingVolume := awaitingVolume + {user};
      }
    }

    /** The members of a new file: the users in any order. */
    method Entries() returns (file: File, ghost ids: seq<User>)
      ensures |ids| == |file|
      ensures forall i :: 0 <= i < |file| ==> file[i] == (cfg.show(ids[i]), Some(Saved(cfg, Of(ids[i]))))
      ensures forall i, j :: 0 <= i < j < |ids| ==> ids[i] != ids[j]
      ensures forall u :: Worth(Of(u)) <==> u in ids
    {
      var users := userBranches.Keys + userAudio.Keys;
      assert forall u :: Worth(Of(u)) <==> u in users;
      hide Of, Worth, Saved;
      file, ids := [], [];
      while users != {}
        invariant |ids| == |file|
        invariant forall i :: 0 <= i < |file| ==> file[i] == (cfg.show(ids[i]), Some(Saved(cfg, Of(ids[i]))))
        invariant forall i, j :: 0 <= i < j < |ids| ==> ids[i] != ids[j]
        invariant forall u :: Worth(Of(u)) <==> u in users || u in ids
        invariant forall u :: u in ids ==> u !in users
        decreases |users|
      {
        SomeUser(users);
        var user :| user in users;
        file := file + [(cfg.show(user), Some(Saved(cfg, Of(user))))];
        ids := ids + [user];
        users := users - {user};
      }
    }

    /** The file is replaced as a whole, or not at all. */
    method Save(saves: bool)
      requires WellFormed(cfg)
      modifies this`settings, this`written, this`writer
      ensures Wrote(saves)
    {
      hide WellFormed, Holds, Worth, Saved;
      var file, ids := Entries();
      SavedHolds(file, ids);
      if saves {
        settings := Some(file);
        ghost var branches, audio, chosen := userBranches, userAudio, targets;
        written, writer := u => ViewOf(branches, audio, chosen, u), cfg;
      }
    }

    lemma SavedHolds(file: File, ids: seq<User>)
      requires WellFormed(cfg) && |ids| == |file|
      requires forall i :: 0 <= i < |file| ==> file[i] == (cfg.show(ids[i]), Some(Saved(cfg, Of(ids[i]))))
      requires forall i, j :: 0 <= i < j < |ids| ==> ids[i] != ids[j]
      requires forall u :: Worth(Of(u)) <==> u in ids
      ensures forall u :: Holds(cfg, file, u, Of(u))
    {
      forall i | 0 <= i < |file|
        ensures cfg.parseInt(file[i].0) == Some(ids[i])
      {
        ShownReads(cfg, ids[i]);
      }
      hide Saved, WellFormed, Worth, Of;
      forall u
        ensures Holds(cfg, file, u, Of(u))
      {
        if Worth(Of(u)) {
          var k :| 0 <= k < |ids| && ids[k] == u;
          assert OnlyEntry(cfg, file, u, Of(u), k);
        }
      }
    }

    method SetAudio(user: User, volume: Option<int>, output: Option<string>, saves: bool)
      requires Valid() && user in cfg.allowed
      requires volume.Some? ==> 1 <= volume.value <= 100
      requires output.Some? ==> KnownChannel(output.value)
      modifies this`targets, this`userAudio, this`settings, this`written, this`writer
      ensures Valid()
      ensures Became(user, Outcome(Adjusted(old(Of(user)), Changed(old(Of(user)), volume, output)), old(Awaits(user)),
              true), saves)
    {
      hide WellFormed, KeepsCommands, ViewOk, KnownChannel, InSync, Adjusted, Changed;
      assert UserOk(user);
      ChangedIsOk(cfg, Of(user), volume, output);
      var changed := Changed(Of(user), volume, output);
      StoreAudio(user, changed);
      hide Of, Awaits;
      Save(saves);
      StaysValid(user);
    }

    method StoreAudio(user: User, changed: Audio)
      modifies this`targets, this`userAudio
      ensures Of(user) == Adjusted(old(Of(user)), changed)
      ensures forall u :: u != user ==> Of(u) == old(Of(u))
    {
      userAudio := userAudio[user := changed];
      if user in targets {
        targets := targets[user := targets[user].(volume := changed.volume, output := changed.output)];
      }
    }

    // --- Commands -------------------------------------------------------------------------------

    method SetBranch(user: User, branch: string, saves: bool)
      requires Valid() && user in cfg.allowed && branch in cfg.vehicleMaps
      modifies this`targets, this`userBranches, this`awaitingTarget, this`awaitingBranch, this`awaitingVolume,
        this`settings, this`written, this`writer
      ensures Valid()
      ensures Became(user, Outcome(View(Some(branch), old(Of(user)).audio, None), if saves then FOR_TARGET
              else SILENT, true), saves)
    {
      hide WellFormed, KeepsCommands, ViewOk, InSync;
      assert UserOk(user);
      BranchedIsOk(cfg, Of(user), branch);
      ClearInput(user);
      StoreBranch(user, branch);
      hide Of, Awaits;
      Save(saves);
      if saves {
        Await(user, FOR_TARGET);
      }
      StaysValid(user);
    }

    method StoreBranch(user: User, branch: string)
      modifies this`targets, this`userBranches
      ensures Of(user) == View(Some(branch), old(Of(user)).audio, None)
      ensures forall u :: u != user ==> Of(u) == old(Of(u))
    {
      userBranches := userBranches[user := branch];
      targets := targets - {user};
    }

    method HandleBranch(user: User, args: seq<string>, saves: bool)
      requires Valid() && user in cfg.allowed
      modifies this`targets, this`userBranches, this`awaitingTarget, this`awaitingBranch, this`awaitingVolume,
        this`settings, this`written, this`writer
      ensures Valid()
      ensures Became(user, AfterBranch(cfg, old(Of(user)), old(Awaits(user)), args, saves), saves)
    {
      hide WellFormed, KeepsCommands, Holds, ViewOk, InSync;
      if args == [] {
        assert UserOk(user);
        ClearInput(user);
        Await(user, FOR_BRANCH);
        StaysValid(user);
        return;
      }
      var branch := NormalizeBranch(cfg, args[0]);
      hide NormalizeBranch;
      if branch.Some? {
        SetBranch(user, branch.value, saves);
      }
    }

    method AskForTarget(user: User, saves: bool)
      requires Valid() && user in cfg.allowed
      modifies this
      ensures Valid()
      ensures Became(user, AfterTarget(cfg, old(Of(user)), old(Awaits(user)), []), saves)
    {
      hide WellFormed, KeepsCommands, Holds, ViewOk, Parsed, InSync;
      assert UserOk(user);
      ClearInput(user);
      if user !in userBranches {
        StaysValid(user);
        HandleBranch(user, [], saves);
      } else {
        Await(user, FOR_TARGET);
        StaysValid(user);
      }
    }

    method SetTarget(user: User, target: Target, saves: bool)
      requires Valid() && user in cfg.allowed && ViewOk(cfg, WithTarget(target))
      modifies this
      ensures Valid()
      ensures Became(user, Outcome(WithTarget(target), SILENT, true), saves)
    {
      hide WellFormed, KeepsCommands, ViewOk, InSync, WithTarget;
      ClearInput(user);
      StoreTarget(user, target);
      hide Of, Awaits;
      Save(saves);
      StaysValid(user);
    }

    method StoreTarget(user: User, target: Target)
      modifies this`targets, this`userBranches, this`userAudio
      ensures Of(user) == WithTarget(target)
      ensures forall u :: u != user ==> Of(u) == old(Of(u))
    {
      targets := targets[user := target];
      userBranches := userBranches[user := target.branch];
      userAudio := userAudio[user := Audio(target.volume, target.output)];
    }

    method HandleTarget(user: User, args: seq<string>, saves: bool)
      requires Valid() && user in cfg.allowed
      modifies this
      ensures Valid()
      ensures Became(user, AfterTarget(cfg, old(Of(user)), old(Awaits(user)), args), saves)
    {
      hide WellFormed, KeepsCommands, Holds, ViewOk, Parsed, Means, InSync;
      if args == [] {
        AskForTarget(user, saves);
        return;
      }
      var target := ParseTarget(cfg, Of(user), args);
      if target.Some? {
        ParsedIsOk(cfg, Of(user), args);
        SetTarget(user, target.value, saves);
      }
    }

    method HandleVolume(user: User, args: seq<string>, saves: bool)
      requires Valid() && user in cfg.allowed
      modifies this
      ensures Valid()
      ensures Became(user, AfterVolume(cfg, old(Of(user)), args), saves)
    {
      hide WellFormed, KeepsCommands, Holds, ViewOk, InSync;
      assert UserOk(user);
      ClearInput(user);
      var volume := VolumeOf(cfg, args);
      if volume.None? {
        Await(user, FOR_VOLUME);
        StaysValid(user);
        return;
      }
      StaysValid(user);
      SetAudio(user, volume, None, saves);
    }

    method HandleCommand(user: User, parts: seq<string>, saves: bool)
      requires Valid() && user in cfg.allowed && parts != []
      modifies this
      ensures Valid()
      ensures Became(user, AfterCommand(cfg, old(Of(user)), old(Awaits(user)), Command(cfg, parts[0]), parts[1..],
              saves), saves)
    {
      hide WellFormed, KeepsCommands, Holds, ViewOk, Command, AfterBranch, AfterTarget, AfterVolume, InSync;
      var command := Command(cfg, parts[0]);
      if command in PLAIN_COMMANDS {
        assert UserOk(user);
        ClearInput(user);
        StaysValid(user);
      } else if command == "/volume" {
        HandleVolume(user, parts[1..], saves);
      } else if command == "/branch" {
        HandleBranch(user, parts[1..], saves);
      } else if command == "/target" {
        HandleTarget(user, parts[1..], saves);
      }
    }

    // --- Updates --------------------------------------------------------------------------------

    /** A text is taken for the argument of the command whose input was awaited. */
    method HandleAwaited(user: User, command: string, text: string, saves: bool)
      requires Valid() && user in cfg.allowed && command in COMMANDS
      modifies this
      ensures Valid()
      ensures Became(user, AfterCommand(cfg, old(Of(user)), old(Awaits(user)), command, Text.Words(text), saves), saves)
    {
      hide WellFormed, Holds, ViewOk, AfterCommand, InSync, Only, Text.Words;
      WordsOfCommand(command, text);
      OwnCommand(cfg, command);
      HandleCommand(user, Text.Words(command + " " + text), saves);
    }

    /** The branch that was awaited is no longer, even if the text names none. */
    method HandleAwaitedBranch(user: User, text: string, saves: bool)
      requires Valid() && user in cfg.allowed
      modifies this
      ensures Valid()
      ensures old(Awaits(user)) == FOR_BRANCH ==>
                Became(user, AfterCommand(cfg, old(Of(user)), SILENT, "/branch", Text.Words(text), saves), saves)
    {
      hide WellFormed, KeepsCommands, Holds, ViewOk, InSync, AfterCommand, Text.Words;
      assert UserOk(user);
      awaitingBranch := awaitingBranch - {user};
      StaysValid(user);
      HandleAwaited(user, "/branch", text, saves);
    }

    method HandleMessage(m: Update) returns (started: Option<Target>)
      requires Valid() && m.Message?
      modifies this
      ensures Valid()
      ensures Became(m.user, After(cfg, old(Of(m.user)), old(Awaits(m.user)), m), m.saves)
      ensures started == if m.user in cfg.allowed then Plays(old(Of(m.user)), old(Awaits(m.user)), m) else None
    {
      hide WellFormed, KeepsCommands, Holds, ViewOk, Command, AfterBranch, AfterTarget, AfterVolume, Heard, IndexOf,
        Text.Strip, InSync, Kept;
      assert UserOk(m.user);
      started := None;
      if m.user !in cfg.allowed {
        return;
      }
      var text := Heard(m.text);
      if StartsWith(text, "/") {
        assert text[0] == '/';
        HandleCommand(m.user, Text.Words(text), m.saves);
      } else if text != "" && m.user in awaitingVolume {
        HandleAwaited(m.user, "/volume", text, m.saves);
      } else if text != "" && m.user in awaitingTarget {
        HandleAwaited(m.user, "/target", text, m.saves);
      } else if text != "" && m.user in awaitingBranch {
        HandleAwaitedBranch(m.user, text, m.saves);
      } else if m.media && !m.tooLarge {
        if m.user !in targets {
          HandleTarget(m.user, [], m.saves);
        } else if !m.busy {
          started := Some(targets[m.user]);
        }
      }
    }

    /** Whatever was awaited no longer is; the next text is taken for `input`. */
    method StartAction(user: User, input: Input)
      requires Valid() && user in cfg.allowed && AtMostOne(input)
      modifies this`awaitingTarget, this`awaitingBranch, this`awaitingVolume
      ensures Valid() && Became(user, Outcome(old(Of(user)), input, false), false)
    {
      hide WellFormed, KeepsCommands, ViewOk, InSync, Kept;
      assert UserOk(user);
      ClearInput(user);
      Await(user, input);
      StaysValid(user);
    }

    method HandleAction(user: User, action: Action, saves: bool)
      requires Valid() && user in cfg.allowed && (action.ChooseChannel? ==> KnownChannel(action.name))
      modifies this
      ensures Valid()
      ensures Became(user, AfterAction(cfg, old(Of(user)), action, saves), saves)
    {
      hide WellFormed, KeepsCommands, ViewOk, AfterBranch, AfterTarget, InSync, KnownChannel, UserOk, Adjusted, Kept;
      StartAction(user, if action.AskBranch? then FOR_BRANCH else if action.AskVolume? then FOR_VOLUME else SILENT);
      match action {
        case ChooseBranch(name) => HandleBranch(user, [name], saves);
        case ChooseChannel(name) => SetAudio(user, None, Some(name), saves);
        case Quieter => SetAudio(user, Some(Clamped(Effective(Of(user).audio).volume - 5)), None, saves);
        case Louder => SetAudio(user, Some(Clamped(Effective(Of(user).audio).volume + 5)), None, saves);
        case AskTarget => HandleTarget(user, [], saves);
        case _ =>
      }
    }

    method HandleCallback(c: Update)
      requires Valid() && c.Callback?
      modifies this
      ensures Valid()
      ensures Became(c.user, After(cfg, old(Of(c.user)), old(Awaits(c.user)), c), c.saves)
    {
      hide WellFormed, KeepsCommands, ViewOk, InSync, AfterAction, ActionOf, KnownChannel;
      var action := ActionOf(cfg, c.user, c.data);
      if c.user in cfg.allowed && action.Some? && c.answers && c.hasPanel {
        HandleAction(c.user, Meant(action.value), c.saves);
      }
    }

    method HandleUpdate(update: Update)
      requires Valid()
      modifies this
      ensures Valid()
      ensures Became(update.user, After(cfg, old(Of(update.user)), old(Awaits(update.user)), update), update.saves)
      ensures old(InSync()) && update.saves ==> InSync()
      ensures old(Kept()) ==> Kept()
    {
      hide WellFormed, KeepsCommands, Holds, ViewOk, After, UserOk;
      WritesWhatChanged(cfg, Of(update.user), Awaits(update.user), update);
      ghost var o := After(cfg, Of(update.user), Awaits(update.user), update);
      if update.Message? {
        var started := HandleMessage(update);
      } else {
        HandleCallback(update);
      }
      if o.writes && update.saves {
        SyncIsKept();
      }
    }

    lemma SyncIsKept()
      requires Valid() && InSync()
      ensures Kept()
    {
      hide ViewOk, Holds, WellFormed, KeepsCommands;
      forall u
        ensures ViewOk(cfg, written(u))
      {
        assert UserOk(u);
      }
    }

    /**
     Any updates, in order; a handler that is cut short is followed by the next update. `start` is
     where the users stand before them.
     */
    method Run(updates: seq<Update>, ghost start: User -> (View, Input))
      requires Valid() && forall u :: start(u) == (Of(u), Awaits(u))
      modifies this
      ensures Valid()
      ensures forall u :: (Of(u), Awaits(u)) == Session(cfg, start(u).0, start(u).1, updates, u)
      ensures forall u :: written(u) == WrittenView(cfg, start, old(written), updates, u)
      ensures old(Kept()) ==> Kept()
      ensures old(InSync()) && AllSave(updates) ==> InSync()
    {
      hide WellFormed, KeepsCommands, Holds, ViewOk, InSync, Kept, After, UserOk;
      var i := 0;
      while i < |updates|
        invariant 0 <= i <= |updates| && Valid()
        invariant forall u :: (Of(u), Awaits(u)) == Session(cfg, start(u).0, start(u).1, updates[..i], u)
        invariant forall u :: written(u) == WrittenView(cfg, start, old(written), updates[..i], u)
        invariant old(Kept()) ==> Kept()
        invariant old(InSync()) && AllSave(updates) ==> InSync()
      {
        Step(updates[i], updates[..i], start, old(written));
        assert updates[..i + 1] == updates[..i] + [updates[i]];
        i := i + 1;
      }
      assert updates[..i] == updates;
    }

    /** One more update after `done`. */
    method Step(update: Update, ghost done: seq<Update>, ghost start: User -> (View, Input), ghost was: User -> View)
      requires Valid()
      requires forall u :: (Of(u), Awaits(u)) == Session(cfg, start(u).0, start(u).1, done, u)
      requires forall u :: written(u) == WrittenView(cfg, start, was, done, u)
      modifies this
      ensures Valid()
      ensures forall u :: (Of(u), Awaits(u)) == Session(cfg, start(u).0, start(u).1, done + [update], u)
      ensures forall u :: written(u) == WrittenView(cfg, start, was, done + [update], u)
      ensures old(Kept()) ==> Kept()
      ensures old(InSync()) && update.saves ==> InSync()
    {
      hide WellFormed, KeepsCommands, Holds, ViewOk, Kept, After, UserOk;
      assert (done + [update])[..|done|] == done;
      HandleUpdate(update);
    }

    /** No two entries of a file that the bot wrote are about one user, and reading it comes to its end. */
    lemma SavedIsDistinct(later: Config)
      requires Kept() && SameLibrary(cfg, later)
      ensures Distinct(later, Keys(Contents(settings))) && Completes(later, Contents(settings))
    {
      hide ViewOk, WellFormed;
      var file := Contents(settings);
      forall i, j | 0 <= i < j < |file|
        ensures !Collide(later, Keys(file), i, j)
      {
        var user := writer.parseInt(file[i].0);
        if user.Some? {
          assert Holds(writer, file, user.value, written(user.value));
        }
      }
      forall i | 0 <= i < |file|
        ensures !Raises(later, file, i)
      {
        var user := writer.parseInt(file[i].0);
        if user.Some? {
          assert Holds(writer, file, user.value, written(user.value));
        }
      }
    }

    /** What a bot makes of the file when it starts next, for every user: what the last successful write is to yield. */
    lemma NextStart(later: Config, u: User)
      requires Kept() && SameLibrary(cfg, later)
      ensures Loaded(later, Contents(settings), u) == Reborn(later, written(u), u)
      ensures u in later.allowed && (written(u).branch.Some? ==> FixedPoint(later, written(u).branch.value)) ==>
                Loaded(later, Contents(settings), u) == Restored(later, written(u))
    {
      hide Holds, FixedPoint, Restored, Loaded, Reborn, WellFormed, ViewOk;
      HeldLoads(writer, later, Contents(settings), u, written(u));
      if u in later.allowed && (written(u).branch.Some? ==> FixedPoint(later, written(u).branch.value)) {
        Restart(writer, later, Contents(settings), u, written(u));
      }
    }

    /**
     Under the configuration of the last write: a user gets everything that was written back if and only if
     the branch name survives.
     */
    lemma SameStart(u: User)
      requires Kept() && u in writer.allowed
      ensures Survives(writer, written(u)) <==> Same(Loaded(writer, Contents(settings), u), written(u))
    {
      hide Holds, Survives, Same, Loaded, WellFormed, ViewOk;
      RoundTrip(writer, Contents(settings), u, written(u));
    }
  }

  /**
   Any session, in which writing the settings file may fail at any time: the file that is left is
   that of the last successful write, which is the last state if every write succeeded.
   */
  method SessionFromNothing(c: Config, updates: seq<Update>) returns (bot: AudioBot)
    requires WellFormed(c) && KeepsCommands(c)
    ensures fresh(bot) && bot.cfg == c && bot.Valid() && bot.Kept()
    ensures forall u :: (bot.Of(u), bot.Awaits(u)) == Session(c, NOTHING, SILENT, updates, u)
    ensures forall u :: bot.written(u) == WrittenView(c, AT_FIRST, NOT_YET, updates, u)
    ensures AllSave(updates) ==> forall u :: bot.written(u) == bot.Of(u)
  {
    hide WellFormed, KeepsCommands, ViewOk, Loaded, Session, WrittenView, Completes, Distinct;
    var first := AudioBot.Start(c, None);
    bot := first;
    NothingIsOk(c);
    assert bot.InSync() && bot.Kept();
    hide Holds;
    bot.Run(updates, AT_FIRST);
  }

  /**
   A restart, perhaps with another inventory. The bot starts again, in order, and each user has
   what the last successful write of the file is to yield: all of it for a user who is still
   allowed and whose branch name survives normalisation. The file is as it was.
   */
  method NextBot(before: AudioBot, later: Config) returns (after: AudioBot)
    requires before.Kept() && SameLibrary(before.cfg, later)
    requires WellFormed(later) && KeepsCommands(later)
    ensures fresh(after) && after.cfg == later && after.Valid() && after.Kept()
    ensures after.written == before.written
    ensures forall u :: after.Awaits(u) == SILENT && after.Of(u) == Reborn(later, before.written(u), u)
    ensures forall u ::
              u in later.allowed && (before.written(u).branch.Some? ==>
                FixedPoint(later, before.written(u).branch.value)) ==>
                after.Of(u) == Restored(later, before.written(u))
  {
    hide WellFormed, KeepsCommands, ViewOk, Loaded, FixedPoint, Restored, Reborn, Completes, Distinct, Holds;
    before.SavedIsDistinct(later);
    EmptyCompletes(later);
    var second := AudioBot.Start(later, before.settings);
    after := second;
    forall u
      ensures after.Of(u) == Loaded(later, Contents(before.settings), u)
    {
      NobodyLoads(later, [], u);
    }
    forall u
      ensures after.Of(u) == Reborn(later, before.written(u), u)
      ensures u in later.allowed && (before.written(u).branch.Some? ==>
                FixedPoint(later, before.written(u).branch.value)) ==>
                after.Of(u) == Restored(later, before.written(u))
    {
      before.NextStart(later, u);
    }
    SameForAll(before.writer, before.cfg, later);
    after.Inherit(before.written, before.writer);
  }

  lemma EmptyCompletes(cfg: Config)
    ensures Completes(cfg, []) && Distinct(cfg, Keys([]))
  {
  }

  // --- Any number of restarts -----------------------------------------------------------------

  /** One life of the bot: its configuration and the updates it handles before it goes down. */
  datatype Life = Life(cfg: Config, updates: seq<Update>)

  /** What the file was last written for, in any of these lives. */
  ghost function WrittenIn(lives: seq<Life>): User -> View
    decreases |lives|, 0
  {
    if lives == [] then NOT_YET
    else
      var before, last := lives[..|lives| - 1], lives[|lives| - 1];
      var start, was := StartAfter(before, last.cfg), WrittenIn(before);
      u => WrittenView(last.cfg, start, was, last.updates, u)
  }

  /** Where the users stand when the bot starts after these lives. */
  ghost function StartAfter(before: seq<Life>, cfg: Config): User -> (View, Input)
    decreases |before|, 1
  {
    if before == [] then AT_FIRST
    else
      var was := WrittenIn(before);
      u => (Reborn(cfg, was(u), u), SILENT)
  }

  ghost predicate Orderly(lives: seq<Life>) {
    forall i :: 0 <= i < |lives| ==>
      && WellFormed(lives[i].cfg) && KeepsCommands(lives[i].cfg) && SameLibrary(lives[0].cfg, lives[i].cfg)
  }

  /**
   Any number of lives, with another inventory, other aliases or other users in each, and writes of the file
   failing at any time: each start yields what was last written in any life before it, also where the lives
   in between wrote nothing.
   */
  method Lives(lives: seq<Life>) returns (bot: AudioBot)
    requires lives != [] && Orderly(lives)
    ensures fresh(bot) && bot.Kept() && LivedThrough(bot, lives)
  {
    hide WellFormed, KeepsCommands, ViewOk, Session, WrittenView, Holds, SameLibrary;
    bot := SessionFromNothing(lives[0].cfg, lives[0].updates);
    assert lives[..1] == [lives[0]] && [lives[0]][..0] == [];
    assert LivedThrough(bot, lives[..1]) by { FirstLife(lives[0]); }
    var i := 1;
    while i < |lives|
      invariant 1 <= i <= |lives| && fresh(bot)
      invariant bot.Kept() && LivedThrough(bot, lives[..i])
    {
      SameForAll(lives[0].cfg, lives[i - 1].cfg, lives[i].cfg);
      assert lives[..i + 1] == lives[..i] + [lives[i]];
      bot := NextLife(bot, lives[..i], lives[i]);
      i := i + 1;
    }
    assert lives[..i] == lives;
  }

  /** Where a bot stands after these lives, the last of which is its own. */
  ghost predicate LivedThrough(bot: AudioBot, lives: seq<Life>)
    requires lives != []
    reads bot
  {
    var before, last := lives[..|lives| - 1], lives[|lives| - 1];
    && bot.cfg == last.cfg && bot.Valid()
    && (forall u :: bot.written(u) == WrittenIn(lives)(u))
    && forall u ::
         var start := StartAfter(before, last.cfg)(u);
         (bot.Of(u), bot.Awaits(u)) == Session(last.cfg, start.0, start.1, last.updates, u)
  }

  lemma FirstLife(life: Life)
    ensures StartAfter([], life.cfg) == AT_FIRST
    ensures forall u :: WrittenIn([life])(u) == WrittenView(life.cfg, AT_FIRST, NOT_YET, life.updates, u)
  {
    hide WrittenView;
    assert [life][..0] == [];
    assert WrittenIn([]) == NOT_YET;
  }

  method NextLife(bot: AudioBot, ghost before: seq<Life>, life: Life) returns (next: AudioBot)
    requires bot.Kept() && before != [] && LivedThrough(bot, before)
    requires WellFormed(life.cfg) && KeepsCommands(life.cfg) && SameLibrary(bot.cfg, life.cfg)
    ensures fresh(next) && next.Kept() && LivedThrough(next, before + [life])
  {
    hide WellFormed, KeepsCommands, ViewOk, Session, WrittenView, Holds, SameLibrary, Reborn, FixedPoint, Restored;
    next := NextBot(bot, life.cfg);
    next.Inherit(WrittenIn(before), next.writer);
    ghost var start := StartAfter(before, life.cfg);
    forall u
      ensures start(u) == (next.Of(u), next.Awaits(u))
    {
      assert start(u) == (Reborn(life.cfg, WrittenIn(before)(u), u), SILENT);
    }
    next.Run(life.updates, start);
    assert (before + [life])[..|before|] == before;
  }

  lemma SameForAll(a: Config, b: Config, c: Config)
    ensures SameLibrary(a, b) && SameLibrary(b, c) ==> SameLibrary(a, c)
    ensures SameLibrary(a, b) && SameLibrary(a, c) ==> SameLibrary(b, c)
  {
  }
}
