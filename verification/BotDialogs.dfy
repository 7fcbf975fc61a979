/** What a user of the bot sees: dialogs, commands and panel buttons, by the texts that are sent. */
module BotDialogs {
  import opened Common
  import opened BotSettings
  import opened BotSettingsFile
  import opened BotSession
  import Text

  /** A text message. */
  function Says(user: User, text: string, saves: bool): Update {
    Message(user, text, false, false, false, saves)
  }

  /** A button of the user's own panel, answered by the API. */
  function Presses(cfg: Config, user: User, action: string, saves: bool): Update {
    Callback(user, "audio:" + cfg.show(user) + ":" + action, true, true, saves)
  }

  // --- Texts ------------------------------------------------------------------------------------

  lemma {:induction false} StripRightKeepsFront(s: string)
    requires s != "" && !Text.IsSpace(s[0])
    ensures Text.StripRight(s) != "" && Text.StripRight(s)[0] == s[0]
  {
    if |s| > 1 && Text.IsSpace(s[|s| - 1]) {
      StripRightKeepsFront(s[..|s| - 1]);
    }
  }

  lemma StripKeepsFront(s: string)
    requires s != "" && !Text.IsSpace(s[0])
    ensures Text.Strip(s) != "" && Text.Strip(s)[0] == s[0]
  {
    StripRightKeepsFront(s);
  }

  lemma NoButton(s: string)
    requires s != "" && s[0] == '/'
    ensures s !in BUTTON_COMMANDS
  {
  }

  /** A text that starts with a slash is heard as it is, but for whitespace at its ends. */
  lemma HearsCommand(raw: string)
    requires raw != "" && raw[0] == '/'
    ensures StartsWith(Heard(raw), "/") && Text.Words(Heard(raw)) == Text.Words(raw)
  {
    StripKeepsFront(raw);
    NoButton(Text.Strip(raw));
    Text.WordsOfStrip(raw);
    hide Text.Strip, Text.Words;
    assert Heard(raw) == Text.Strip(raw);
  }

  /** A text that is an answer: not blank, no command, and none of the keyboard's buttons. */
  predicate Answer(t: string) {
    Text.Strip(t) != "" && Text.Strip(t)[0] != '/' && Text.Strip(t) !in BUTTON_COMMANDS
  }

  lemma HearsAnswer(t: string)
    requires Answer(t)
    ensures Heard(t) != "" && !StartsWith(Heard(t), "/") && Text.Words(Heard(t)) == Text.Words(t)
  {
    Text.WordsOfStrip(t);
    hide Text.Words;
  }

  /** What a command does, alone and with words behind it. */
  lemma CommandDoes(cfg: Config, v: View, input: Input, user: User, command: string, t: string, saves: bool)
    requires KeepsCommands(cfg) && user in cfg.allowed && command in COMMANDS
    ensures After(cfg, v, input, Says(user, command, saves)) == AfterCommand(cfg, v, input, command, [], saves)
    ensures After(cfg, v, input, Says(user, command + " " + t, saves))
         == AfterCommand(cfg, v, input, command, Text.Words(t), saves)
  {
    OwnCommand(cfg, command);
    HearsCommand(command);
    HearsCommand(command + " " + t);
    WordsOfCommand(command, t);
    OneWord(command);
    hide Text.Words, Heard, AfterCommand, Command, KeepsCommands;
    assert [command][1..] == [];
  }

  lemma NoWords()
    ensures Text.Words("") == []
  {
  }

  lemma SpaceBehind(s: string)
    ensures Text.Words(s + " " + "") == Text.Words(s)
  {
    assert s + " " + "" == s + [' '];
    Text.WordsWithSpaceAfter(s, ' ');
  }

  lemma OneWord(command: string)
    requires command in COMMANDS
    ensures Text.Words(command) == [command]
  {
    hide Text.Words, Text.IsSpace;
    WordsOfCommand(command, "");
    SpaceBehind(command);
    NoWords();
  }

  lemma CommandIsNamed(cfg: Config, v: View, input: Input, args: seq<string>, saves: bool)
    ensures AfterCommand(cfg, v, input, "/volume", args, saves) == AfterVolume(cfg, v, args)
    ensures AfterCommand(cfg, v, input, "/branch", args, saves) == AfterBranch(cfg, v, input, args, saves)
    ensures AfterCommand(cfg, v, input, "/target", args, saves) == AfterTarget(cfg, v, input, args)
  {
    hide AfterVolume, AfterBranch, AfterTarget;
  }

  // --- Dialogs ------------------------------------------------------------------------------------

  /** What follows when a text answers an input that is awaited. */
  lemma AnswerDoes(cfg: Config, v: View, input: Input, user: User, t: string, saves: bool)
    requires user in cfg.allowed && Answer(t)
    ensures input == FOR_VOLUME ==> After(cfg, v, input, Says(user, t, saves)) == AfterVolume(cfg, v, Text.Words(t))
    ensures input == FOR_TARGET ==>
              After(cfg, v, input, Says(user, t, saves)) == AfterTarget(cfg, v, input, Text.Words(t))
    ensures input == FOR_BRANCH ==>
              After(cfg, v, input, Says(user, t, saves)) == AfterBranch(cfg, v, SILENT, Text.Words(t), saves)
  {
    HearsAnswer(t);
    hide Text.Words, Heard, AfterVolume, AfterTarget, AfterBranch, AfterCommand;
  }

  /** Two messages: the first is alone on its line, the second answers. */
  ghost function InTwo(cfg: Config, v: View, input: Input, user: User, command: string, t: string,
      saves: bool): Outcome
  {
    var asked := After(cfg, v, input, Says(user, command, saves));
    After(cfg, asked.view, asked.input, Says(user, t, saves))
  }

  ghost function InOne(cfg: Config, v: View, input: Input, user: User, command: string, t: string,
      saves: bool): Outcome
  {
    After(cfg, v, input, Says(user, command + " " + t, saves))
  }

  /**
   A dialog is the command in two messages: asking with `/volume`, `/branch` or `/target` and then answering
   does to the user's settings what the command with the answer behind it does, from every state; and so do
   the buttons of the panel. A user without a branch who asks for a target is asked for the branch first.
   */
  lemma DialogIsCommand(cfg: Config, v: View, input: Input, user: User, t: string, saves: bool)
    requires KeepsCommands(cfg) && user in cfg.allowed && Answer(t)
    ensures InTwo(cfg, v, input, user, "/volume", t, saves).view == InOne(cfg, v, input, user, "/volume", t, saves).view
    ensures InTwo(cfg, v, input, user, "/branch", t, saves).view == InOne(cfg, v, input, user, "/branch", t, saves).view
    ensures InTwo(cfg, v, input, user, "/target", t, saves).view ==
              InOne(cfg, v, input, user, if v.branch.Some? then "/target" else "/branch", t, saves).view
  {
    hide After, AfterCommand, KeepsCommands, Answer, Text.Words, NormalizeBranch, Parsed;
    CommandDoes(cfg, v, input, user, "/volume", t, saves);
    CommandDoes(cfg, v, input, user, "/branch", t, saves);
    CommandDoes(cfg, v, input, user, "/target", t, saves);
    CommandIsNamed(cfg, v, input, [], saves);
    CommandIsNamed(cfg, v, input, Text.Words(t), saves);
    AnswerDoes(cfg, v, FOR_VOLUME, user, t, saves);
    AnswerDoes(cfg, v, FOR_BRANCH, user, t, saves);
    AnswerDoes(cfg, v, FOR_TARGET, user, t, saves);
  }

  // --- What the commands do -----------------------------------------------------------------------

  /** Nothing but volume and channel changed, and a target follows them. */
  ghost predicate Sounds(v: View, v': View, volume: int, output: string) {
    && v'.branch == v.branch && v'.audio == Some(Audio(volume, output))
    && (v'.target.Some? <==> v.target.Some?)
    && (v.target.Some? ==>
          && v'.target.value.branch == v.target.value.branch && v'.target.value.number == v.target.value.number
          && v'.target.value.ip == v.target.value.ip
          && v'.target.value.volume == volume && v'.target.value.output == output)
  }

  /** The volume that is in force: 25 until one was set. */
  function VolumeNow(v: View): int {
    if v.audio.Some? then v.audio.value.volume else 25
  }

  function ChannelNow(v: View): string {
    if v.audio.Some? then v.audio.value.output else "salon"
  }

  /** `/volume N` sets the volume, and that alone, if N is 1 to 100; else it is asked for again. */
  lemma VolumeIsSet(cfg: Config, v: View, input: Input, user: User, t: string, saves: bool)
    requires KeepsCommands(cfg) && user in cfg.allowed
    ensures var o := After(cfg, v, input, Says(user, "/volume " + t, saves));
            var words := Text.Words(t);
            if words != [] && cfg.parseInt(words[0]).Some? && 1 <= cfg.parseInt(words[0]).value <= 100
            then Sounds(v, o.view, cfg.parseInt(words[0]).value, ChannelNow(v)) && o.input == SILENT && o.writes
            else o == Outcome(v, FOR_VOLUME, false)
  {
    hide After, AfterCommand, KeepsCommands, Text.Words;
    CommandDoes(cfg, v, input, user, "/volume", t, saves);
    CommandIsNamed(cfg, v, input, Text.Words(t), saves);
    assert "/volume" + " " + t == "/volume " + t;
  }

  /** `/branch NAME` sets a branch that is known and drops the target; an unknown name changes nothing at all. */
  lemma BranchIsSet(cfg: Config, v: View, input: Input, user: User, t: string, saves: bool)
    requires KeepsCommands(cfg) && user in cfg.allowed && Text.Words(t) != []
    ensures var o := After(cfg, v, input, Says(user, "/branch " + t, saves));
            var branch := NormalizeBranch(cfg, Text.Words(t)[0]);
            if branch.Some?
            then o.view == View(branch, v.audio, None) && o.input == (if saves then FOR_TARGET else SILENT) && o.writes
            else o == Outcome(v, input, false)
  {
    hide After, AfterCommand, KeepsCommands, Text.Words, NormalizeBranch;
    CommandDoes(cfg, v, input, user, "/branch", t, saves);
    CommandIsNamed(cfg, v, input, Text.Words(t), saves);
    assert "/branch" + " " + t == "/branch " + t;
  }

  /** `/target ...` takes over the one target that the words mean, with all that belongs to it, or changes nothing. */
  lemma TargetIsSet(cfg: Config, v: View, input: Input, user: User, t: string, saves: bool, found: Target)
    requires KeepsCommands(cfg) && user in cfg.allowed && Text.Words(t) != []
    ensures var o := After(cfg, v, input, Says(user, "/target " + t, saves));
            && (Means(cfg, v, Text.Words(t), found) ==>
                  && o.view.target == Some(found) && o.view.branch == Some(found.branch)
                  && o.view.audio == Some(Audio(found.volume, found.output)) && o.input == SILENT && o.writes)
            && ((forall other :: !Means(cfg, v, Text.Words(t), other)) ==> o == Outcome(v, input, false))
  {
    hide After, AfterCommand, KeepsCommands, Text.Words, Means, Parsed;
    CommandDoes(cfg, v, input, user, "/target", t, saves);
    CommandIsNamed(cfg, v, input, Text.Words(t), saves);
    assert "/target" + " " + t == "/target " + t;
    var words := Text.Words(t);
    if Means(cfg, v, words, found) {
      MeansOne(cfg, v, words, found, Parsed(cfg, v, words).value);
    }
  }

  /** A target of the inventory that the bot can reach. */
  ghost predicate Known(cfg: Config, branch: string, number: string) {
    Lists(cfg, branch, number) && Accepted(cfg.vehicleMaps[branch][number])
  }

  ghost function EntryOf(cfg: Config, branch: string, number: string, volume: int, output: string): Target
    requires Known(cfg, branch, number)
  {
    Target(branch, number, cfg.vehicleMaps[branch][number], volume, output)
  }

  /**
   `/target BRANCH NUMBER VOLUME CHANNEL` word by word, and `/target NUMBER` in the user's own branch, which keeps
   the volume and the channel in force.
   */
  lemma TargetWordByWord(cfg: Config, v: View, input: Input, user: User, t: string, saves: bool)
    requires KeepsCommands(cfg) && user in cfg.allowed
    ensures var words := Text.Words(t);
            |words| == 4 && NormalizeBranch(cfg, words[0]).Some? && cfg.parseInt(words[2]).Some? ==>
              var branch, volume := NormalizeBranch(cfg, words[0]).value, cfg.parseInt(words[2]).value;
              Known(cfg, branch, Text.Strip(words[1])) && 1 <= volume <= 100 && KnownChannel(words[3]) ==>
                After(cfg, v, input, Says(user, "/target " + t, saves)).view ==
                  View(Some(branch), Some(Audio(volume, words[3])),
                       Some(EntryOf(cfg, branch, Text.Strip(words[1]), volume, words[3])))
    ensures var words := Text.Words(t);
            |words| == 1 && NormalizeBranch(cfg, words[0]).None? && v.branch.Some?
            && Known(cfg, v.branch.value, Text.Strip(words[0]))
            && 1 <= VolumeNow(v) <= 100 && KnownChannel(ChannelNow(v)) ==>
              After(cfg, v, input, Says(user, "/target " + t, saves)).view ==
                View(v.branch, Some(Audio(VolumeNow(v), ChannelNow(v))),
                     Some(EntryOf(cfg, v.branch.value, Text.Strip(words[0]), VolumeNow(v), ChannelNow(v))))
  {
    hide After, KeepsCommands, Text.Words, Text.Strip, NormalizeBranch, Accepted, KnownChannel, Says;
    var words := Text.Words(t);
    if |words| == 4 && NormalizeBranch(cfg, words[0]).Some? && cfg.parseInt(words[2]).Some? {
      var branch, volume := NormalizeBranch(cfg, words[0]).value, cfg.parseInt(words[2]).value;
      if Known(cfg, branch, Text.Strip(words[1])) && 1 <= volume <= 100 && KnownChannel(words[3]) {
        TargetIsSet(cfg, v, input, user, t, saves, EntryOf(cfg, branch, Text.Strip(words[1]), volume, words[3]));
      }
    }
    if |words| == 1 && NormalizeBranch(cfg, words[0]).None? && v.branch.Some?
       && Known(cfg, v.branch.value, Text.Strip(words[0]))
       && 1 <= VolumeNow(v) <= 100 && KnownChannel(ChannelNow(v)) {
      TargetIsSet(cfg, v, input, user, t, saves,
        EntryOf(cfg, v.branch.value, Text.Strip(words[0]), VolumeNow(v), ChannelNow(v)));
    }
  }

  /** The other commands leave all settings alone, and nothing is awaited after them. */
  lemma PlainCommandsChangeNothing(cfg: Config, v: View, input: Input, user: User, command: string, saves: bool)
    requires KeepsCommands(cfg) && user in cfg.allowed
    requires command == "/start" || command == "/help" || command == "/channel" || command == "/status"
             || command == "/stop"
    ensures After(cfg, v, input, Says(user, command, saves)) == Outcome(v, SILENT, false)
  {
    CommandDoes(cfg, v, input, user, command, "", saves);
    hide After, KeepsCommands;
  }

  // --- Tracks -------------------------------------------------------------------------------------

  /**
   A track without a text starts a job for exactly the user's target, if there is one, unless the user is busy
   or the track is too large; a user without a target is asked for one, whatever was awaited.
   */
  lemma TrackIsPlayed(cfg: Config, v: View, input: Input, user: User, tooLarge: bool, busy: bool, saves: bool)
    requires user in cfg.allowed
    ensures var m := Message(user, "", true, tooLarge, busy, saves);
            && Plays(v, input, m) == (if tooLarge || busy then None else v.target)
            && After(cfg, v, input, m) ==
                 if tooLarge || v.target.Some? then Outcome(v, input, false)
                 else Outcome(v, if v.branch.Some? then FOR_TARGET else FOR_BRANCH, false)
  {
    assert Text.Strip("") == "";
    NotAButton();
    hide AfterCommand, Parsed;
  }

  lemma NotAButton()
    ensures "" !in BUTTON_COMMANDS
  {
  }

  // --- The panel ------------------------------------------------------------------------------------

  lemma PartsOfData(shown: string, action: string)
    requires ':' !in shown
    ensures var data := "audio:" + shown + ":" + action;
            && IndexOf(data, ':') == 5 && data[..5] == "audio"
            && var rest := data[6..];
               IndexOf(rest, ':') == |shown| && rest[..|shown|] == shown && rest[|shown| + 1..] == action
  {
    var data := "audio:" + shown + ":" + action;
    assert data[5] == ':' && forall i :: 0 <= i < 5 ==> data[i] != ':';
    var rest := data[6..];
    assert rest == shown + ":" + action;
    assert rest[|shown|] == ':' && forall i :: 0 <= i < |shown| ==> rest[i] == shown[i] && rest[i] != ':';
    assert data[..5] == "audio";
    hide IndexOf;
  }

  lemma ActionIsRead(cfg: Config, user: User, action: string)
    requires ':' !in cfg.show(user)
    ensures ActionOf(cfg, user, "audio:" + cfg.show(user) + ":" + action) == Some(action)
  {
    PartsOfData(cfg.show(user), action);
    hide IndexOf;
  }

  lemma PressDoes(cfg: Config, v: View, input: Input, user: User, action: string, saves: bool)
    requires user in cfg.allowed && ':' !in cfg.show(user)
    ensures After(cfg, v, input, Presses(cfg, user, action, saves)) == AfterAction(cfg, v, Meant(action), saves)
  {
    ActionIsRead(cfg, user, action);
    hide ActionOf, AfterAction, Meant;
  }

  /** Another user's panel, one that the API has not answered, or one whose message is gone does nothing at all. */
  lemma OtherPanelsDoNothing(cfg: Config, v: View, input: Input, user: User, other: User, action: string,
      answers: bool, hasPanel: bool, saves: bool)
    requires ':' !in cfg.show(other)
    requires cfg.show(other) != cfg.show(user) || !answers || !hasPanel || user !in cfg.allowed
    ensures var data := "audio:" + cfg.show(other) + ":" + action;
            After(cfg, v, input, Callback(user, data, answers, hasPanel, saves)) == Outcome(v, input, false)
  {
    PartsOfData(cfg.show(other), action);
    hide AfterAction, Meant, IndexOf;
  }

  /** One step of the volume, within 1 to 100. */
  predicate OneStep(was: int, step: int, volume: int) {
    && 1 <= volume <= 100 && (1 <= was + step <= 100 ==> volume == was + step)
    && (was + step < 1 ==> volume == 1) && (was + step > 100 ==> volume == 100)
  }

  /** The buttons change the volume by five, down and up, and nothing else but the target's volume with it. */
  lemma QuieterAndLouder(cfg: Config, v: View, input: Input, user: User, saves: bool)
    requires user in cfg.allowed && ':' !in cfg.show(user)
    ensures var o := After(cfg, v, input, Presses(cfg, user, "quieter", saves));
            && o.view.audio.Some? && OneStep(VolumeNow(v), -5, o.view.audio.value.volume)
            && Sounds(v, o.view, o.view.audio.value.volume, ChannelNow(v)) && o.input == SILENT && o.writes
    ensures var o := After(cfg, v, input, Presses(cfg, user, "louder", saves));
            && o.view.audio.Some? && OneStep(VolumeNow(v), 5, o.view.audio.value.volume)
            && Sounds(v, o.view, o.view.audio.value.volume, ChannelNow(v)) && o.input == SILENT && o.writes
  {
    hide After, Meant;
    PressDoes(cfg, v, input, user, "quieter", saves);
    PressDoes(cfg, v, input, user, "louder", saves);
    WordsMean();
    hide Presses;
  }

  /** A channel button sets the channel, a branch button the branch, as the command would. */
  lemma ChannelAndBranchButtons(cfg: Config, v: View, input: Input, user: User, name: string, saves: bool)
    requires user in cfg.allowed && ':' !in cfg.show(user)
    ensures KnownChannel(name) ==>
              var o := After(cfg, v, input, Presses(cfg, user, "channel=" + name, saves));
              Sounds(v, o.view, VolumeNow(v), name) && o.input == SILENT && o.writes
    ensures !KnownChannel(name) ==>
              After(cfg, v, input, Presses(cfg, user, "channel=" + name, saves)) == Outcome(v, SILENT, false)
    ensures var o := After(cfg, v, input, Presses(cfg, user, "branch=" + name, saves));
            var branch := NormalizeBranch(cfg, name);
            if branch.Some?
            then o.view == View(branch, v.audio, None) && o.input == (if saves then FOR_TARGET else SILENT) && o.writes
            else o == Outcome(v, SILENT, false)
  {
    hide After, Meant, NormalizeBranch, KnownChannel;
    PressDoes(cfg, v, input, user, "channel=" + name, saves);
    PressDoes(cfg, v, input, user, "branch=" + name, saves);
    ButtonsMean(name);
    hide Presses;
  }

  lemma WordsMean()
    ensures Meant("quieter") == Quieter && Meant("louder") == Louder
    ensures Meant("volume") == AskVolume && Meant("branch") == AskBranch && Meant("target") == AskTarget
  {
    assert "quieter"[0] == 'q' && BRANCH_ACTION[0] == 'b';
    assert |"louder"| < |BRANCH_ACTION| && |"volume"| < |BRANCH_ACTION|;
    assert |"branch"| < |BRANCH_ACTION| && |"target"| < |BRANCH_ACTION| < |CHANNEL_ACTION|;
  }

  lemma ButtonsMean(name: string)
    ensures Meant("branch=" + name) == ChooseBranch(name)
    ensures Meant("channel=" + name) == if KnownChannel(name) then ChooseChannel(name) else ClearOnly
  {
    assert ("branch=" + name)[|BRANCH_ACTION|..] == name;
    assert ("channel=" + name)[|CHANNEL_ACTION|..] == name;
    assert ("channel=" + name)[0] == 'c';
  }

  /** The three asking buttons are the first half of a dialog; whatever was awaited before no longer is. */
  lemma AskingButtons(cfg: Config, v: View, input: Input, user: User, saves: bool)
    requires user in cfg.allowed && ':' !in cfg.show(user)
    ensures After(cfg, v, input, Presses(cfg, user, "volume", saves)) == Outcome(v, FOR_VOLUME, false)
    ensures After(cfg, v, input, Presses(cfg, user, "branch", saves)) == Outcome(v, FOR_BRANCH, false)
    ensures After(cfg, v, input, Presses(cfg, user, "target", saves)) ==
              Outcome(v, if v.branch.Some? then FOR_TARGET else FOR_BRANCH, false)
  {
    hide After, Meant, Parsed;
    PressDoes(cfg, v, input, user, "volume", saves);
    PressDoes(cfg, v, input, user, "branch", saves);
    PressDoes(cfg, v, input, user, "target", saves);
    WordsMean();
    hide Presses;
  }
}
