/**
 The settings file of the audio bot: what `_save_settings` writes, what `_load_settings` makes of
 any file, and what therefore survives a restart.
 */
module BotSettingsFile {
  import opened Common
  import opened BotSettings
  import Text
  import IPv4

  /**
   A JSON value under a key: absent; null, false, zero or empty; a text; an infinite number, whose
   `int` raises an error of its own; or anything else, with its `str` and its `int` if there is one.
   */
  datatype Value =
    | Absent
    | Falsy
    | Text(text: string)
    | Infinite(shown: string)
    | Other(shown: string, number: Option<int>)

  datatype Entry = Entry(volume: Value, output: Value, branch: Value, number: Value)

  /** The members of the JSON object in their order; `None` for a value that is not an object. */
  type File = seq<(string, Option<Entry>)>

  // --- The invariant ----------------------------------------------------------------------------

  /** What holds of every user at all times. */
  ghost predicate ViewOk(cfg: Config, v: View) {
    && (v.branch.Some? ==> v.branch.value in cfg.vehicleMaps)
    && (v.audio.Some? ==> AudioOk(v.audio.value))
    && (v.target.Some? ==>
          && Located(cfg, v.target.value) && Canonical(v.target.value.number)
          && v.branch == Some(v.target.value.branch)
          && v.audio == Some(Audio(v.target.value.volume, v.target.value.output)))
  }

  predicate Canonical(number: string) {
    number != "" && Text.Strip(number) == number
  }

  /** An integer that is shown reads back, and the inventory loader skips rows without a number. */
  ghost predicate Sound(cfg: Config) {
    && (forall n :: cfg.parseInt(cfg.show(n)) == Some(n))
    && (forall b :: b in cfg.vehicleMaps ==> "" !in cfg.vehicleMaps[b])
  }

  /**
   A vehicle is listed, in a branch whose name does not survive normalisation, under that
   branch's own name, and some other name leads to that branch.
   */
  ghost predicate Ambush(cfg: Config, b: string) {
    && NormalizeBranch(cfg, b).None? && Lists(cfg, b, Text.Strip(b)) && Accepted(cfg.vehicleMaps[b][Text.Strip(b)])
    && exists s :: LeadsTo(cfg, s, b)
  }

  predicate LeadsTo(cfg: Config, s: string, b: string) {
    s != "" && NormalizeBranch(cfg, s) == Some(b)
  }

  /** What the bot relies on; that no ambush is laid is exactly what loading needs, as `AmbushDecides` shows. */
  ghost predicate WellFormed(cfg: Config) {
    Sound(cfg) && forall b :: !Ambush(cfg, b)
  }

  lemma ShownReads(cfg: Config, u: User)
    requires Sound(cfg)
    ensures cfg.parseInt(cfg.show(u)) == Some(u)
  {
  }

  /** A target that was parsed, put in place with its branch and its settings. */
  function WithTarget(t: Target): View {
    View(Some(t.branch), Some(Audio(t.volume, t.output)), Some(t))
  }

  lemma ParsedIsOk(cfg: Config, v: View, args: seq<string>)
    requires WellFormed(cfg) && Parsed(cfg, v, args).Some?
    ensures ViewOk(cfg, WithTarget(Parsed(cfg, v, args).value))
  {
    hide NormalizeBranch, IPv4.Parse, IPv4.InVehicleNetwork, Text.Strip, Chosen;
    var t := Parsed(cfg, v, args).value;
    var (named, rest) := Named(cfg, args);
    Text.StripIdempotent(rest[0]);
  }

  // --- Loading ----------------------------------------------------------------------------------

  function AsVolume(cfg: Config, value: Value): Option<int> {
    match value
    case Absent => Some(DEFAULT_AUDIO.volume)
    case Falsy => None   // `int` raises, or the number is 0
    case Text(text) => cfg.parseInt(text)
    case Infinite(_) => None   // `int` raises what nobody handles; see `Completes`
    case Other(_, number) => number
  }

  function AsOutput(value: Value): Option<string> {
    match value
    case Absent => Some(DEFAULT_AUDIO.output)
    case Text(text) => Some(text)
    case _ => None
  }

  /** The settings of an entry, if `_load_settings` accepts them. */
  function AsAudio(cfg: Config, entry: Entry): (r: Option<Audio>)
    ensures r.Some? ==> AudioOk(r.value)
  {
    match (AsVolume(cfg, entry.volume), AsOutput(entry.output))
    case (Some(volume), Some(output)) => if AudioOk(Audio(volume, output)) then Some(Audio(volume, output)) else None
    case _ => None
  }

  /** The branch of an entry; `_normalize_branch` raises on a value that is true but no text. */
  function AsBranch(cfg: Config, entry: Entry): (r: Option<string>)
    ensures r.Some? ==> r.value in cfg.vehicleMaps
  {
    if entry.branch.Text? then NormalizeBranch(cfg, entry.branch.text) else None
  }

  /** `str(number)`, if the number is true. */
  function AsNumber(entry: Entry): Option<string> {
    match entry.number
    case Text(text) => if text == "" then None else Some(text)
    case Infinite(shown) => Some(shown)
    case Other(shown, _) => Some(shown)
    case _ => None
  }

  /** What one accepted entry makes of what is known about its user; it ends where something raises. */
  ghost function Entered(cfg: Config, v: View, entry: Entry): View {
    var audio := AsAudio(cfg, entry);
    if audio.None? then v
    else
      var heard := v.(audio := audio);
      var branch := AsBranch(cfg, entry);
      if branch.None? then heard
      else
        var placed := heard.(branch := branch);
        var number := AsNumber(entry);
        if number.None? then placed
        else
          var target := Parsed(cfg, placed, [branch.value, number.value]);
          if target.None? then placed
          else placed.(branch := if NormalizeBranch(cfg, branch.value).Some? then Some(target.value.branch)
            else branch, target := target)
  }

  /** Is the `i`-th member of the file about this user? */
  predicate About(cfg: Config, file: File, u: User, i: nat)
    requires i < |file|
  {
    cfg.parseInt(file[i].0) == Some(u) && u in cfg.allowed && file[i].1.Some?
  }

  /** Reading the `i`-th member stops the bot: an infinite volume of an allowed user. */
  predicate Raises(cfg: Config, file: File, i: nat)
    requires i < |file|
  {
    && cfg.parseInt(file[i].0).Some? && cfg.parseInt(file[i].0).value in cfg.allowed
    && file[i].1.Some? && file[i].1.value.volume.Infinite?
  }

  /** Reading the file comes to its end. */
  predicate Completes(cfg: Config, file: File) {
    forall i :: 0 <= i < |file| ==> !Raises(cfg, file, i)
  }

  /** A file with one key that does not complete: distinct keys are no protection. */
  lemma InfiniteVolumeStopsTheBot(cfg: Config, key: string, u: User, shown: string)
    requires cfg.parseInt(key) == Some(u) && u in cfg.allowed
    ensures var file := [(key, Some(Entry(Infinite(shown), Absent, Absent, Absent)))];
            Distinct(cfg, Keys(file)) && !Completes(cfg, file)
  {
    var file := [(key, Some(Entry(Infinite(shown), Absent, Absent, Absent)))];
    assert Raises(cfg, file, 0);
  }

  /** What reading a file yields for one user: the entries about that user, in order. */
  ghost function Loaded(cfg: Config, file: File, u: User): View {
    if file == [] then NOTHING
    else
      var before := Loaded(cfg, file[..|file| - 1], u);
      if About(cfg, file, u, |file| - 1) then Entered(cfg, before, file[|file| - 1].1.value) else before
  }

  lemma {:induction false} NobodyLoads(cfg: Config, file: File, u: User)
    requires forall i :: 0 <= i < |file| ==> !About(cfg, file, u, i)
    ensures Loaded(cfg, file, u) == NOTHING
  {
    if file != [] {
      var front := file[..|file| - 1];
      assert forall i :: 0 <= i < |front| ==> About(cfg, front, u, i) == About(cfg, file, u, i);
      NobodyLoads(cfg, front, u);
    }
  }

  /** With one entry about a user, the others do not matter. */
  lemma {:induction false} OneLoads(cfg: Config, file: File, u: User, k: nat)
    requires k < |file| && About(cfg, file, u, k)
    requires forall i :: 0 <= i < |file| && i != k ==> !About(cfg, file, u, i)
    ensures Loaded(cfg, file, u) == Entered(cfg, NOTHING, file[k].1.value)
  {
    hide Entered;
    var front := file[..|file| - 1];
    assert forall i :: 0 <= i < |front| ==> About(cfg, front, u, i) == About(cfg, file, u, i);
    if k == |file| - 1 {
      NobodyLoads(cfg, front, u);
    } else {
      OneLoads(cfg, front, u, k);
    }
  }

  lemma EnteredIsOk(cfg: Config, entry: Entry)
    requires WellFormed(cfg)
    ensures ViewOk(cfg, Entered(cfg, NOTHING, entry))
  {
    hide NormalizeBranch, IPv4.Parse, IPv4.InVehicleNetwork, Text.Strip, Chosen;
    var audio, branch, number := AsAudio(cfg, entry), AsBranch(cfg, entry), AsNumber(entry);
    if audio.Some? && branch.Some? && number.Some? {
      var placed := View(branch, audio, None);
      var args := [branch.value, number.value];
      if Parsed(cfg, placed, args).Some? {
        ParsedIsOk(cfg, placed, args);
        if NormalizeBranch(cfg, branch.value).None? {
          EmptyIsNoBranch(cfg);
          NoAmbushHere(cfg, placed, entry.branch.text, branch.value, number.value);
        } else {
          assert args[1..] == [number.value];
        }
      }
    }
  }

  /** A name that does not survive never gets a target, unless it is an ambush. */
  lemma NoAmbushHere(cfg: Config, v: View, alias: string, b: string, number: string)
    requires WellFormed(cfg) && LeadsTo(cfg, alias, b) && NormalizeBranch(cfg, b).None? && v.branch == Some(b)
    ensures Parsed(cfg, v, [b, number]).None?
  {
    hide NormalizeBranch, IPv4.Parse, IPv4.InVehicleNetwork, Text.Strip, Chosen;
    var args := [b, number];
    assert !Ambush(cfg, b);
    assert Named(cfg, args) == (None, args);
    forall t
      ensures !Means(cfg, v, args, t)
    {
      if Chosen(cfg, None, v.branch, Text.Strip(b), t.branch) {
        ChosenOwn(cfg, b, Text.Strip(b), t.branch);
      }
    }
  }

  lemma ChosenOwn(cfg: Config, own: string, number: string, branch: string)
    requires Chosen(cfg, None, Some(own), number, branch)
    ensures branch == own
  {
  }

  // --- Which files keep the invariant -----------------------------------------------------------

  function Keys(file: File): seq<string> {
    seq(|file|, i requires 0 <= i < |file| => file[i].0)
  }

  /** Two keys that both denote one allowed user, such as "100" and "0100". */
  predicate Collide(cfg: Config, keys: seq<string>, i: nat, j: nat)
    requires i < |keys| && j < |keys|
  {
    && cfg.parseInt(keys[i]).Some? && cfg.parseInt(keys[i]) == cfg.parseInt(keys[j])
    && cfg.parseInt(keys[i]).value in cfg.allowed
  }

  predicate Distinct(cfg: Config, keys: seq<string>) {
    forall i, j :: 0 <= i < j < |keys| ==> !Collide(cfg, keys, i, j)
  }

  lemma DistinctLoads(cfg: Config, file: File, u: User)
    requires WellFormed(cfg) && Distinct(cfg, Keys(file))
    ensures ViewOk(cfg, Loaded(cfg, file, u))
    ensures Loaded(cfg, file, u) != NOTHING ==> u in cfg.allowed
  {
    hide Entered, WellFormed, ViewOk;
    if k :| 0 <= k < |file| && About(cfg, file, u, k) {
      forall i | 0 <= i < |file| && i != k
        ensures !About(cfg, file, u, i)
      {
        assert !Collide(cfg, Keys(file), if i < k then i else k, if i < k then k else i);
      }
      OneLoads(cfg, file, u, k);
      EnteredIsOk(cfg, file[k].1.value);
    } else {
      NobodyLoads(cfg, file, u);
      NothingIsOk(cfg);
    }
  }

  lemma NothingIsOk(cfg: Config)
    ensures ViewOk(cfg, NOTHING)
  {
  }

  /** A branch and a number for which a target can be set. */
  ghost predicate Resolvable(cfg: Config, branch: string, number: string) {
    FixedPoint(cfg, branch) && Canonical(number) && Lists(cfg, branch, number)
      && Accepted(cfg.vehicleMaps[branch][number])
  }

  /** One entry sets the target, a later one with an equivalent key changes the volume alone. */
  function Clash(keys: seq<string>, i: nat, j: nat, branch: string, number: string): (file: File)
    requires i < j < |keys|
    ensures Keys(file) == keys
  {
    seq(|keys|, k requires 0 <= k < |keys| =>
      (keys[k],
       if k == i then Some(Entry(Absent, Absent, Text(branch), Text(number)))
       else if k == j then Some(Entry(Other("26", Some(26)), Absent, Absent, Absent))
       else None))
  }

  lemma ResolvableParses(cfg: Config, own: string, word: string, branch: string, number: string, audio: Audio)
    requires NormalizeBranch(cfg, word) == Some(branch) && AudioOk(audio)
    requires Canonical(number) && Lists(cfg, branch, number) && Accepted(cfg.vehicleMaps[branch][number])
    ensures Parsed(cfg, View(Some(own), Some(audio), None), [word, number])
         == Some(Target(branch, number, cfg.vehicleMaps[branch][number], audio.volume, audio.output))
  {
    hide NormalizeBranch, IPv4.Parse, IPv4.InVehicleNetwork, Text.Strip;
    var v, args := View(Some(own), Some(audio), None), [word, number];
    var t := Target(branch, number, cfg.vehicleMaps[branch][number], audio.volume, audio.output);
    assert args[1..] == [number];
    assert Named(cfg, args) == (Some(branch), [number]);
    assert Means(cfg, v, args, t);
    MeansOne(cfg, v, args, t, Parsed(cfg, v, args).value);
  }

  /** Up to the second key, the first entry alone counts, and it sets the target with the default settings. */
  lemma ClashSetsTarget(cfg: Config, keys: seq<string>, i: nat, j: nat, branch: string, number: string)
    requires i < j < |keys| && Collide(cfg, keys, i, j) && Resolvable(cfg, branch, number)
    ensures Loaded(cfg, Clash(keys, i, j, branch, number)[..j], cfg.parseInt(keys[i]).value) ==
              View(Some(branch), Some(DEFAULT_AUDIO),
                   Some(Target(branch, number, cfg.vehicleMaps[branch][number], 25, "salon")))
  {
    hide NormalizeBranch, Accepted, Text.Strip, Parsed, Lists, Loaded;
    var file, u := Clash(keys, i, j, branch, number), cfg.parseInt(keys[i]).value;
    var upto := file[..j];
    assert forall k :: 0 <= k < j ==> About(cfg, upto, u, k) == (k == i);
    OneLoads(cfg, upto, u, i);
    ResolvableParses(cfg, branch, branch, branch, number, DEFAULT_AUDIO);
    EmptyIsNoBranch(cfg);
  }

  lemma ClashBreaks(cfg: Config, keys: seq<string>, i: nat, j: nat, branch: string, number: string)
    requires i < j < |keys| && Collide(cfg, keys, i, j) && Resolvable(cfg, branch, number)
    ensures !ViewOk(cfg, Loaded(cfg, Clash(keys, i, j, branch, number), cfg.parseInt(keys[i]).value))
  {
    hide NormalizeBranch, Accepted, Canonical, Lists, Parsed, Resolvable;
    ClashSetsTarget(cfg, keys, i, j, branch, number);
    var file, u := Clash(keys, i, j, branch, number), cfg.parseInt(keys[i]).value;
    var both := file[..j + 1];
    assert both[..j] == file[..j] && both[j] == file[j];
    assert About(cfg, both, u, j);
    hide Clash;
    var view := Loaded(cfg, both, u);
    assert view == Loaded(cfg, file[..j], u).(audio := Some(Audio(26, "salon")));
    hide Loaded;
    LaterAreSilent(cfg, keys, i, j, branch, number);
    RestIsSilent(cfg, file, u, j + 1);
  }

  lemma LaterAreSilent(cfg: Config, keys: seq<string>, i: nat, j: nat, branch: string, number: string)
    requires i < j < |keys|
    ensures var file := Clash(keys, i, j, branch, number);
            forall u: User, k :: j < k < |file| ==> !About(cfg, file, u, k)
  {
  }

  lemma EmptyIsNoBranch(cfg: Config)
    ensures NormalizeBranch(cfg, "").None?
  {
  }

  lemma {:induction false} RestIsSilent(cfg: Config, file: File, u: User, n: nat)
    requires n <= |file|
    requires forall i :: n <= i < |file| ==> !About(cfg, file, u, i)
    ensures Loaded(cfg, file, u) == Loaded(cfg, file[..n], u)
  {
    hide Entered;
    if n == |file| {
      assert file[..n] == file;
    } else {
      var front := file[..|file| - 1];
      assert forall i :: n <= i < |front| ==> About(cfg, front, u, i) == About(cfg, file, u, i);
      RestIsSilent(cfg, front, u, n);
      assert front[..n] == file[..n];
    }
  }

  ghost predicate AllOk(cfg: Config, file: File) {
    forall u :: ViewOk(cfg, Loaded(cfg, file, u))
  }

  /**
   Exactly when loading keeps the invariant: every file with these keys that is read to its end
   does, whatever its entries hold, if and only if no two of the keys denote one allowed user.
   */
  lemma KeysDecide(cfg: Config, keys: seq<string>, branch: string, number: string)
    requires WellFormed(cfg) && Resolvable(cfg, branch, number)
    ensures Distinct(cfg, keys) <==>
              forall file: File :: Keys(file) == keys && Completes(cfg, file) ==> AllOk(cfg, file)
  {
    hide WellFormed, ViewOk, Loaded, Resolvable, Collide, Completes;
    if Distinct(cfg, keys) {
      forall file: File | Keys(file) == keys
        ensures AllOk(cfg, file)
      {
        DistinctAllOk(cfg, file);
      }
    } else {
      var i, j :| 0 <= i < j < |keys| && Collide(cfg, keys, i, j);
      CollideHasUser(cfg, keys, i, j);
      ClashBreaks(cfg, keys, i, j, branch, number);
      ClashCompletes(cfg, keys, i, j, branch, number);
      assert !AllOk(cfg, Clash(keys, i, j, branch, number));
    }
  }

  lemma DistinctAllOk(cfg: Config, file: File)
    requires WellFormed(cfg) && Distinct(cfg, Keys(file))
    ensures AllOk(cfg, file)
  {
    hide WellFormed, ViewOk, Loaded, Distinct;
    forall u
      ensures ViewOk(cfg, Loaded(cfg, file, u))
    {
      DistinctLoads(cfg, file, u);
    }
  }

  lemma ClashCompletes(cfg: Config, keys: seq<string>, i: nat, j: nat, branch: string, number: string)
    requires i < j < |keys|
    ensures Completes(cfg, Clash(keys, i, j, branch, number))
  {
  }

  lemma CollideHasUser(cfg: Config, keys: seq<string>, i: nat, j: nat)
    requires i < |keys| && j < |keys| && Collide(cfg, keys, i, j)
    ensures cfg.parseInt(keys[i]).Some?
  {
  }

  /** The file that walks into an ambush: the saved number is taken for a volume. */
  function Walk(cfg: Config, key: string, alias: string): File {
    [(key, Some(Entry(Absent, Absent, Text(alias), Other(cfg.show(50), None))))]
  }

  lemma AmbushBreaks(cfg: Config, key: string, u: User, alias: string, b: string)
    requires Sound(cfg) && cfg.parseInt(key) == Some(u) && u in cfg.allowed
    requires LeadsTo(cfg, alias, b) && Ambush(cfg, b)
    ensures !ViewOk(cfg, Loaded(cfg, Walk(cfg, key, alias), u))
  {
    hide NormalizeBranch, IPv4.Parse, IPv4.InVehicleNetwork, Text.Strip, Sound;
    var file := Walk(cfg, key, alias);
    OneLoads(cfg, file, u, 0);
    assert cfg.parseInt(cfg.show(50)) == Some(50) by { ShownReads(cfg, 50); }
    var placed := View(Some(b), Some(DEFAULT_AUDIO), None);
    var args := [b, cfg.show(50)];
    var t := Target(b, Text.Strip(b), cfg.vehicleMaps[b][Text.Strip(b)], 50, "salon");
    assert Named(cfg, args) == (None, args);
    assert Means(cfg, placed, args, t);
    MeansOne(cfg, placed, args, t, Parsed(cfg, placed, args).value);
  }

  /** Why the configuration matters: files with distinct keys load well if and only if no ambush is laid. */
  lemma AmbushDecides(cfg: Config, u: User)
    requires Sound(cfg) && u in cfg.allowed
    ensures (forall b :: !Ambush(cfg, b)) <==>
              forall file: File :: Distinct(cfg, Keys(file)) && Completes(cfg, file) ==> AllOk(cfg, file)
  {
    hide Sound, ViewOk, Loaded, Ambush, Distinct, Completes;
    if b :| Ambush(cfg, b) {
      var alias := AmbushAlias(cfg, b);
      var key := cfg.show(u);
      ShownReads(cfg, u);
      AmbushBreaks(cfg, key, u, alias, b);
      var file := Walk(cfg, key, alias);
      WalkIsProper(cfg, key, alias);
      assert !AllOk(cfg, file);
    } else {
      forall file: File | Distinct(cfg, Keys(file))
        ensures AllOk(cfg, file)
      {
        DistinctAllOk(cfg, file);
      }
    }
  }

  lemma AmbushAlias(cfg: Config, b: string) returns (alias: string)
    requires Ambush(cfg, b)
    ensures LeadsTo(cfg, alias, b)
  {
    alias :| LeadsTo(cfg, alias, b);
  }

  lemma WalkIsProper(cfg: Config, key: string, alias: string)
    ensures Distinct(cfg, Keys(Walk(cfg, key, alias))) && Completes(cfg, Walk(cfg, key, alias))
  {
  }

  // --- Saving, and what a restart restores ------------------------------------------------------

  /** Users that `_save_settings` writes. */
  predicate Worth(v: View) {
    v.branch.Some? || v.audio.Some?
  }

  /** The entry of a user. */
  function Saved(cfg: Config, v: View): Entry {
    Entry(
      if v.audio.Some? then Other(cfg.show(v.audio.value.volume), Some(v.audio.value.volume)) else Absent,
      if v.audio.Some? then Text(v.audio.value.output) else Absent,
      if v.branch.Some? then Text(v.branch.value) else Falsy,
      if v.target.Some? then Text(v.target.value.number) else Falsy)
  }

  /** The file tells of this user what `_save_settings` writes: one entry, or none. */
  ghost predicate Holds(cfg: Config, file: File, u: User, v: View) {
    if Worth(v) then exists k :: 0 <= k < |file| && OnlyEntry(cfg, file, u, v, k)
    else forall i :: 0 <= i < |file| ==> cfg.parseInt(file[i].0) != Some(u)
  }

  ghost predicate OnlyEntry(cfg: Config, file: File, u: User, v: View, k: nat)
    requires k < |file|
  {
    && file[k] == (cfg.show(u), Some(Saved(cfg, v)))
    && forall i :: 0 <= i < |file| && i != k ==> cfg.parseInt(file[i].0) != Some(u)
  }

  /** What is left of a user after a restart: effective settings, and the target as the inventory then has it. */
  ghost function Restored(cfg: Config, v: View): View {
    if !Worth(v) then NOTHING
    else
      View(
        v.branch, Some(Effective(v.audio)),
        if v.target.Some? && Lists(cfg, v.target.value.branch, v.target.value.number)
             && Accepted(cfg.vehicleMaps[v.target.value.branch][v.target.value.number])
        then Some(v.target.value.(ip := cfg.vehicleMaps[v.target.value.branch][v.target.value.number])) else None)
  }

  /** The same process configuration but for the inventory, the aliases and the users. */
  ghost predicate SameLibrary(cfg: Config, later: Config) {
    && (forall s :: later.parseInt(s) == cfg.parseInt(s))
    && (forall n :: later.show(n) == cfg.show(n))
  }

  lemma SavedAudio(cfg: Config, v: View)
    requires ViewOk(cfg, v)
    ensures AsAudio(cfg, Saved(cfg, v)) == Some(Effective(v.audio))
  {
  }

  lemma ReEntered(cfg: Config, later: Config, v: View)
    requires ViewOk(cfg, v) && Worth(v)
    requires v.branch.Some? ==> FixedPoint(later, v.branch.value)
    ensures Entered(later, NOTHING, Saved(cfg, v)) == Restored(later, v)
  {
    hide NormalizeBranch, IPv4.Parse, IPv4.InVehicleNetwork, Text.Strip, Parsed;
    if v.target.Some? {
      var t := v.target.value;
      var placed := View(v.branch, v.audio, None);
      var args := [t.branch, t.number];
      if Lists(later, t.branch, t.number) && Accepted(later.vehicleMaps[t.branch][t.number]) {
        ResolvableParses(later, t.branch, t.branch, t.branch, t.number, v.audio.value);
      } else {
        Unresolvable(later, placed, t.branch, t.number);
      }
    }
  }

  lemma Unresolvable(cfg: Config, v: View, branch: string, number: string)
    requires FixedPoint(cfg, branch) && Canonical(number)
    requires !(Lists(cfg, branch, number) && Accepted(cfg.vehicleMaps[branch][number]))
    ensures Parsed(cfg, v, [branch, number]).None?
  {
    hide NormalizeBranch, IPv4.Parse, IPv4.InVehicleNetwork, Text.Strip;
    var args := [branch, number];
    assert args[1..] == [number];
    assert Named(cfg, args) == (Some(branch), [number]);
  }

  /** What an entry that was saved for a view yields when it is loaded. */
  ghost function Reborn(later: Config, v: View, u: User): View {
    if Worth(v) && u in later.allowed then Entered(later, NOTHING, Saved(later, v)) else NOTHING
  }

  /** A file that holds a view of a user yields what that view is to yield, and nothing else, for the user. */
  lemma HeldLoads(cfg: Config, later: Config, file: File, u: User, v: View)
    requires WellFormed(cfg) && SameLibrary(cfg, later) && Holds(cfg, file, u, v)
    ensures Loaded(later, file, u) == Reborn(later, v, u)
  {
    hide Entered, Saved;
    if Worth(v) && u in later.allowed {
      var k :| 0 <= k < |file| && OnlyEntry(cfg, file, u, v, k);
      ShownReads(cfg, u);
      assert About(later, file, u, k);
      OneLoads(later, file, u, k);
      SameEntry(cfg, later, v);
    } else {
      NobodyLoads(later, file, u);
    }
  }

  lemma SameEntry(cfg: Config, later: Config, v: View)
    requires SameLibrary(cfg, later)
    ensures Saved(later, v) == Saved(cfg, v)
  {
  }

  /**
   A restart: a file that was saved, loaded under a configuration whose inventory may have
   changed, restores what `Restored` says - for every user still allowed whose branch name
   survives normalisation.
   */
  lemma Restart(cfg: Config, later: Config, file: File, u: User, v: View)
    requires WellFormed(cfg) && SameLibrary(cfg, later) && u in later.allowed
    requires ViewOk(cfg, v) && Holds(cfg, file, u, v)
    requires v.branch.Some? ==> FixedPoint(later, v.branch.value)
    ensures Loaded(later, file, u) == Restored(later, v)
  {
    hide NormalizeBranch, Entered, Saved, ViewOk, Loaded, Holds;
    HeldLoads(cfg, later, file, u, v);
    if Worth(v) {
      SameEntry(cfg, later, v);
      ReEntered(cfg, later, v);
    }
  }

  /**
   Does a branch name come back? A user with a target has the name normalised twice: when the
   entry is read, and when the target is resolved. So two aliases that swap two branches lose
   the branch of a user without a target, and keep that of a user with one.
   */
  predicate Survives(cfg: Config, v: View) {
    v.branch.Some? ==>
      && NormalizeBranch(cfg, v.branch.value).Some?
      && var once := NormalizeBranch(cfg, v.branch.value).value;
      if v.target.Some? then NormalizeBranch(cfg, once) == v.branch else once == v.branch.value
  }

  lemma FixedPointSurvives(cfg: Config, v: View)
    requires v.branch.Some? ==> FixedPoint(cfg, v.branch.value)
    ensures Survives(cfg, v)
  {
  }

  ghost predicate Same(v: View, w: View) {
    v.branch == w.branch && v.target == w.target && Effective(v.audio) == Effective(w.audio)
  }

  /**
   The round trip: with the inventory unchanged, a user gets branch, target and effective
   settings back if and only if the branch name survives.
   */
  lemma RoundTrip(cfg: Config, file: File, u: User, v: View)
    requires WellFormed(cfg) && u in cfg.allowed
    requires ViewOk(cfg, v) && Holds(cfg, file, u, v)
    ensures Survives(cfg, v) <==> Same(Loaded(cfg, file, u), v)
  {
    hide ViewOk, Survives, Saved, Entered, NormalizeBranch;
    if Worth(v) {
      var k :| 0 <= k < |file| && OnlyEntry(cfg, file, u, v, k);
      assert cfg.parseInt(cfg.show(u)) == Some(u);
      assert About(cfg, file, u, k);
      OneLoads(cfg, file, u, k);
      EntryRoundTrip(cfg, v);
    } else {
      NobodyLoads(cfg, file, u);
      WorthlessIsNothing(cfg, v);
    }
  }

  lemma WorthlessIsNothing(cfg: Config, v: View)
    requires ViewOk(cfg, v) && !Worth(v)
    ensures v == NOTHING && Survives(cfg, v)
  {
  }

  lemma EntryRoundTrip(cfg: Config, v: View)
    requires ViewOk(cfg, v) && Worth(v)
    ensures Survives(cfg, v) <==> Same(Entered(cfg, NOTHING, Saved(cfg, v)), v)
  {
    hide IPv4.Parse, IPv4.InVehicleNetwork, Text.Strip, Parsed, Spelling, NormalizeBranch;
    SavedAudio(cfg, v);
    if v.branch.Some? {
      assert v.branch.value != "" ==> AsBranch(cfg, Saved(cfg, v)) == NormalizeBranch(cfg, v.branch.value);
      var once := NormalizeBranch(cfg, v.branch.value);
      if v.target.Some? && once.Some? {
        var t := v.target.value;
        var placed := View(once, v.audio, None);
        if NormalizeBranch(cfg, once.value) == v.branch {
          ResolvableParses(cfg, once.value, once.value, t.branch, t.number, v.audio.value);
        }
      }
    }
  }
}
