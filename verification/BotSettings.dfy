/**
 What the audio bot knows about each user - branch, audio settings, target - and how it is
 written to the settings file and resolved again from the inventory when it is read back.
 */
module BotSettings {
  import opened Common
  import Text
  import IPv4

  type User = int

  datatype Audio = Audio(volume: int, output: string)

  const DEFAULT_AUDIO := Audio(25, "salon")

  datatype Target = Target(branch: string, number: string, ip: string, volume: int, output: string)

  /**
   The bot's configuration. Lower-casing, reading an integer and showing one are those of the
   standard library; nothing but `WellFormed` is assumed of them.
   */
  datatype Config = Config(
    allowed: set<User>, vehicleMaps: map<string, map<string, string>>, aliases: map<string, string>,
      defaultBranch: string,
    lower: string -> string, parseInt: string -> Option<int>, show: int -> string)

  predicate KnownChannel(output: string) {
    output == "salon" || output == "street" || output == "tangenta"
  }

  predicate AudioOk(audio: Audio) {
    1 <= audio.volume <= 100 && KnownChannel(audio.output)
  }

  // --- Branch names -----------------------------------------------------------------------------

  function Dashes(s: string): (r: string)
    ensures |r| == |s| && forall i :: 0 <= i < |s| ==> r[i] == if s[i] == '_' then '-' else s[i]
  {
    seq(|s|, i requires 0 <= i < |s| => if s[i] == '_' then '-' else s[i])
  }

  function Spelling(cfg: Config, value: string): string {
    Dashes(cfg.lower(Text.Strip(value)))
  }

  /** `_normalize_branch`. */
  function NormalizeBranch(cfg: Config, value: string): (r: Option<string>)
    ensures r.Some? ==> r.value in cfg.vehicleMaps
  {
    var normalized := Spelling(cfg, value);
    if value == "" then None
    else if normalized in cfg.aliases && cfg.aliases[normalized] in cfg.vehicleMaps then Some(cfg.aliases[normalized])
    else if normalized in cfg.vehicleMaps then Some(normalized)
    else None
  }

  /**
   Spellings of a name that differ in surrounding whitespace, or in underscores against dashes,
   mean the same branch; so do spellings that lower-casing makes equal.
   */
  lemma SpellingDecides(cfg: Config, a: string, b: string)
    requires Text.Strip(a) != "" && Text.Strip(b) != ""
    requires Dashes(cfg.lower(Text.Strip(a))) == Dashes(cfg.lower(Text.Strip(b)))
    ensures NormalizeBranch(cfg, a) == NormalizeBranch(cfg, b) == NormalizeBranch(cfg, Text.Strip(a))
  {
    Text.StripIdempotent(a);
    assert a != "" && b != "" by { assert Text.Strip("") == ""; }
  }

  /** A branch name that survives normalisation. */
  predicate FixedPoint(cfg: Config, branch: string) {
    NormalizeBranch(cfg, branch) == Some(branch)
  }

  /** Where an alias leads that is listed for the name's spelling, if to a branch. */
  function ByAlias(cfg: Config, name: string): Option<string> {
    var spelling := Spelling(cfg, name);
    if spelling in cfg.aliases && cfg.aliases[spelling] in cfg.vehicleMaps then Some(cfg.aliases[spelling]) else None
  }

  /**
   Exactly which branch names survive: those that an alias leads back to, and those that are their own spelling
   and that no alias leads away from. An alias goes before a branch of the same name.
   */
  lemma SurvivesExactly(cfg: Config, branch: string)
    requires branch != "" && branch in cfg.vehicleMaps
    ensures FixedPoint(cfg, branch) <==>
              ByAlias(cfg, branch) == Some(branch) || (Spelling(cfg, branch) == branch && ByAlias(cfg, branch).None?)
  {
  }

  /** A name with an underscore survives only where an alias brings it back. */
  lemma UnderscoreNeedsAlias(cfg: Config, branch: string)
    requires '_' in branch && branch in cfg.vehicleMaps
    ensures FixedPoint(cfg, branch) <==>
            Spelling(cfg, branch) in cfg.aliases && cfg.aliases[Spelling(cfg, branch)] == branch
  {
    assert '_' !in Spelling(cfg, branch);
  }

  // --- Targets ----------------------------------------------------------------------------------

  /** What the bot holds for one user. */
  datatype View = View(branch: Option<string>, audio: Option<Audio>, target: Option<Target>)

  const NOTHING := View(None, None, None)

  /** An address that `_parse_target` accepts. */
  predicate Accepted(ip: string) {
    IPv4.Parse(ip).Some? && IPv4.InVehicleNetwork(IPv4.Parse(ip).value)
  }

  /** The target is the inventory's entry for its branch and number. */
  ghost predicate Located(cfg: Config, t: Target) {
    && Lists(cfg, t.branch, t.number)
    && t.ip == cfg.vehicleMaps[t.branch][t.number] && Accepted(t.ip)
  }

  /** The arguments without the branch, and the branch if the first of them names one. */
  function Named(cfg: Config, args: seq<string>): (Option<string>, seq<string>)
    requires args != []
  {
    var named := NormalizeBranch(cfg, args[0]);
    (named, if named.Some? then args[1..] else args)
  }

  ghost predicate Chosen(cfg: Config, named: Option<string>, own: Option<string>, number: string, branch: string) {
    if named.Some? then branch == named.value
    else if own.Some? then branch == own.value
    else forall b :: Lists(cfg, b, number) ==> b == branch
  }

  predicate Lists(cfg: Config, branch: string, number: string) {
    branch in cfg.vehicleMaps && number in cfg.vehicleMaps[branch]
  }

  /**
   What `_parse_target` is to find: the entry of the branch that is named, else of the user's
   branch, else of the only branch that has the number. The default branch plays no part.
   */
  ghost predicate Means(cfg: Config, v: View, args: seq<string>, t: Target) {
    && args != []
    && var (named, rest) := Named(cfg, args);
    && rest != []
    && t.number == Text.Strip(rest[0])
    && Chosen(cfg, named, v.branch, t.number, t.branch)
    && Located(cfg, t)
    && AudioOk(Audio(t.volume, t.output))
    && (if |rest| > 1 then Some(t.volume) == cfg.parseInt(rest[1]) else t.volume == Effective(v.audio).volume)
    && t.output == (if |rest| > 2 then rest[2] else Effective(v.audio).output)
  }

  /** The settings in force: those of the user, or the defaults. */
  function Effective(audio: Option<Audio>): Audio {
    if audio.Some? then audio.value else DEFAULT_AUDIO
  }

  lemma MeansOne(cfg: Config, v: View, args: seq<string>, s: Target, t: Target)
    requires Means(cfg, v, args, s) && Means(cfg, v, args, t)
    ensures s == t
  {
  }

  ghost function Parsed(cfg: Config, v: View, args: seq<string>): (r: Option<Target>)
    ensures r.Some? <==> exists t :: Means(cfg, v, args, t)
    ensures r.Some? ==> Means(cfg, v, args, r.value)
  {
    if t :| Means(cfg, v, args, t) then Some(t) else None
  }

  /** The branch in which `_parse_target` looks, if it finds one that lists the number. */
  method ChooseBranch(cfg: Config, named: Option<string>, own: Option<string>,
      number: string) returns (branch: Option<string>)
    ensures forall b :: Chosen(cfg, named, own, number, b) && Lists(cfg, b, number) <==> branch == Some(b)
  {
    branch := if named.Some? then named else own;
    var matches := set b | b in cfg.vehicleMaps && number in cfg.vehicleMaps[b];
    assert forall b :: b in matches <==> Lists(cfg, b, number);
    if branch.None? {
      if |matches| > 1 {
        TwoOf(matches);
        return None;
      }
      if matches == {} {
        branch := Some(cfg.defaultBranch);
      } else {
        var only :| only in matches;
        OneOf(matches, only);
        branch := Some(only);
      }
    }
    if !Lists(cfg, branch.value, number) {
      assert branch.value !in matches;
      return None;
    }
  }

  /**
   `_parse_target`, apart from the branch it stores for the user: that is `t.branch` when the first
   argument named it.
   */
  method ParseTarget(cfg: Config, v: View, args: seq<string>) returns (r: Option<Target>)
    ensures r == Parsed(cfg, v, args)
  {
    hide Chosen, NormalizeBranch, Text.Strip, IPv4.Parse, IPv4.Show, IPv4.InVehicleNetwork, KnownChannel;
    if args == [] {
      return None;
    }
    var (named, rest) := Named(cfg, args);
    if rest == [] {
      return None;
    }
    var number := Text.Strip(rest[0]);
    var branch := ChooseBranch(cfg, named, v.branch, number);
    if branch.None? {
      return None;
    }
    assert Chosen(cfg, named, v.branch, number, branch.value) && Lists(cfg, branch.value, number);
    var ip := cfg.vehicleMaps[branch.value][number];
    var address := IPv4.Parse(ip);
    if address.None? || !IPv4.InVehicleNetwork(address.value) {
      return None;
    }
    var volume := if |rest| > 1 then cfg.parseInt(rest[1]) else Some(Effective(v.audio).volume);
    if volume.None? {
      return None;
    }
    var output := if |rest| > 2 then rest[2] else Effective(v.audio).output;
    if !(1 <= volume.value <= 100) || !KnownChannel(output) {
      return None;
    }
    IPv4.ShowUndoesParse(ip);
    r := Some(Target(branch.value, number, IPv4.Show(address.value), volume.value, output));
    assert Means(cfg, v, args, r.value);
    MeansOne(cfg, v, args, r.value, Parsed(cfg, v, args).value);
  }

  lemma TwoOf(s: set<string>)
    requires |s| > 1
    ensures exists a, b :: a in s && b in s && a != b
  {
    var a :| a in s;
    assert |s - {a}| == |s| - 1;
    var b :| b in s - {a};
  }

  lemma OneOf(s: set<string>, a: string)
    requires a in s && |s| <= 1
    ensures s == {a}
  {
    assert |s - {a}| == |s| - 1;
    assert s == (s - {a}) + {a};
  }
}
