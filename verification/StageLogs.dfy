/** The log of a job's post-processing stages: one text in the database, a list of stages in the history. */
module StageLogs {
  import opened Texts
  import StableSorts

  datatype Stage = Stage(name: string, actions: seq<string>)

  const CRLF := "\r\n"
  const COLONS := ":::"
  const SEMICOLON := ";"

  // ---------------------------------------------------------------------------------------------------- the printer

  function Line(stage: Stage): string {
    stage.name + COLONS + Join(stage.actions, SEMICOLON)
  }

  function Lines(log: seq<Stage>): seq<string> {
    seq(|log|, i requires 0 <= i < |log| => Line(log[i]))
  }

  /** The stage log as `build_history_info` packs it. */
  function Pack(log: seq<Stage>): string {
    Join(Lines(log), CRLF)
  }

  // ----------------------------------------------------------------------------------------------------- the parser

  /** A line that does not have exactly one `:::` is skipped. */
  function Parse(line: string): seq<Stage> {
    var pieces := Split(line, COLONS);
    if |pieces| == 2 then [Stage(pieces[0], Split(pieces[1], SEMICOLON))] else []
  }

  function ParseAll(lines: seq<string>): seq<Stage> {
    if lines == [] then [] else ParseAll(lines[..|lines| - 1]) + Parse(lines[|lines| - 1])
  }

  /** The order of stages. */
  function Rank(name: string): nat {
    match name
    case "RSS" => 0
    case "Source" => 1
    case "Download" => 2
    case "Servers" => 3
    case "Repair" => 4
    case "Filejoin" => 5
    case "Unpack" => 6
    case "Deobfuscate" => 7
    case "Script" => 8
    case _ => 100
  }

  function RankOf(stage: Stage): nat {
    Rank(stage.name)
  }

  /** Sorted by rank; stages of one rank keep their order. */
  function SortStages(log: seq<Stage>): seq<Stage> {
    StableSorts.Sort(log, RankOf)
  }

  /** The stage log as `unpack_history_info` unpacks it. */
  function Unpack(text: string): seq<Stage> {
    if text == "" then [] else SortStages(ParseAll(Split(text, CRLF)))
  }

  // ------------------------------------------------------------------------------------------ the program's own form

  method PackStages(log: seq<Stage>) returns (text: string)
    ensures text == Pack(log)
  {
    var lines := [];
    for i := 0 to |log|
      invariant |lines| == i && forall k :: 0 <= k < i ==> lines[k] == Line(log[k])
    {
      lines := lines + [Line(log[i])];
    }
    assert lines == Lines(log);
    text := Join(lines, CRLF);
  }

  method UnpackStages(text: string) returns (log: seq<Stage>)
    ensures log == Unpack(text)
  {
    log := [];
    if text != "" {
      var lines := Split(text, CRLF);
      for i := 0 to |lines|
        invariant log == ParseAll(lines[..i])
      {
        assert lines[..i + 1][..i] == lines[..i];
        var pieces := Split(lines[i], COLONS);
        if |pieces| == 2 {
          log := log + [Stage(pieces[0], Split(pieces[1], SEMICOLON))];
        }
      }
      assert lines[..|lines|] == lines;
      log := SortStages(log);
    }
  }

  // ------------------------------------------------------------------------------------------------- the round trip

  /** A stage that survives: it has an action, nothing in it looks like a separator, and the name does not run into
      the separator behind it. */
  predicate Clean(stage: Stage) {
    && |stage.actions| > 0 && !Contains(stage.name, CRLF) && !Contains(stage.name + "::", COLONS)
    && forall i :: 0 <= i < |stage.actions| ==> CleanAction(stage.actions[i])
  }

  predicate CleanAction(action: string) {
    !Contains(action, SEMICOLON) && !Contains(action, COLONS) && !Contains(action, CRLF)
  }

  /** The joined actions have a separator exactly when one of them has. */
  lemma {:induction false} JoinFree(actions: seq<string>, sep: string)
    requires |sep| > 0 && ';' !in sep && |actions| > 0
    ensures !Contains(Join(actions, SEMICOLON), sep) <==> forall i :: 0 <= i < |actions| ==> !Contains(actions[i], sep)
  {
    if |actions| > 1 {
      var rest := actions[1..];
      NotAcross(actions[0], SEMICOLON, Join(rest, SEMICOLON), sep);
      JoinFree(rest, sep);
      assert forall i :: 0 <= i < |rest| ==> rest[i] == actions[i + 1];
      assert forall i :: 1 <= i < |actions| ==> actions[i] == rest[i - 1];
    }
  }

  lemma SemicolonShort(s: string)
    ensures s + SEMICOLON[..|SEMICOLON| - 1] == s
  {
    assert SEMICOLON[..0] == "";
  }

  lemma ActionsSeparable(actions: seq<string>)
    requires |actions| > 0
    ensures Separable(actions, SEMICOLON) <==> forall i :: 0 <= i < |actions| ==> !Contains(actions[i], SEMICOLON)
  {
    forall i | 0 <= i < |actions| ensures actions[i] + SEMICOLON[..|SEMICOLON| - 1] == actions[i] {
      SemicolonShort(actions[i]);
    }
  }

  lemma ColonsShort(s: string)
    ensures s + COLONS[..|COLONS| - 1] == s + "::"
  {
    assert COLONS[..2] == "::";
  }

  lemma CrlfShort(s: string)
    ensures Contains(s + CRLF[..|CRLF| - 1], CRLF) <==> Contains(s, CRLF)
  {
    NoRepeat(s, CRLF);
  }

  /** A clean stage's line is one line, and parses to the stage. */
  lemma CleanLine(stage: Stage)
    requires Clean(stage)
    ensures !Contains(Line(stage), CRLF) && Parse(Line(stage)) == [stage]
  {
    var v := Join(stage.actions, SEMICOLON);
    JoinFree(stage.actions, CRLF);
    JoinFree(stage.actions, COLONS);
    NotAcross(stage.name, COLONS, v, CRLF);
    ColonsShort(stage.name);
    var pieces := [stage.name, v];
    assert Separable(pieces, COLONS);
    SplitJoin(pieces, COLONS);
    assert pieces[1..] == [v] && Join(pieces, COLONS) == Line(stage);
    ActionsSeparable(stage.actions);
    SplitJoin(stage.actions, SEMICOLON);
  }

  /** What a line parses to is clean. */
  lemma ParsedIsClean(line: string, stage: Stage)
    requires !Contains(line, CRLF) && Parse(line) == [stage]
    ensures Clean(stage)
  {
    var pieces := Split(line, COLONS);
    JoinSplit(line, COLONS);
    SplitSeparates(line, COLONS);
    var k, v := pieces[0], pieces[1];
    assert pieces[1..] == [v] && line == k + COLONS + v;
    ColonsShort(k);
    NotAcross(k, COLONS, v, CRLF);
    var actions := Split(v, SEMICOLON);
    JoinSplit(v, SEMICOLON);
    SplitSeparates(v, SEMICOLON);
    ActionsSeparable(actions);
    JoinFree(actions, CRLF);
    JoinFree(actions, COLONS);
    assert stage == Stage(k, actions);
  }

  predicate AllClean(log: seq<Stage>) {
    forall i :: 0 <= i < |log| ==> Clean(log[i])
  }

  lemma {:induction false} ParseLines(log: seq<Stage>)
    requires AllClean(log)
    ensures ParseAll(Lines(log)) == log
    decreases |log|
  {
    if log != [] {
      var short := log[..|log| - 1];
      assert Lines(log)[..|log| - 1] == Lines(short);
      ParseLines(short);
      CleanLine(log[|log| - 1]);
      assert log == short + [log[|log| - 1]];
    }
  }

  lemma LinesSeparable(log: seq<Stage>)
    requires AllClean(log) && log != []
    ensures Separable(Lines(log), CRLF)
  {
    forall i | 0 <= i < |log| ensures !Contains(Lines(log)[i], CRLF) && !Contains(Lines(log)[i] + CRLF[..|CRLF| - 1], CRLF) {
      CleanLine(log[i]);
      CrlfShort(Lines(log)[i]);
    }
  }

  lemma PackIsNotEmpty(log: seq<Stage>)
    requires log != []
    ensures Pack(log) != ""
  {
    assert |Lines(log)[0]| >= 3;
  }

  lemma CleanRoundTrip(log: seq<Stage>)
    requires AllClean(log)
    ensures Unpack(Pack(log)) == SortStages(log)
  {
    if log != [] {
      LinesSeparable(log);
      SplitJoin(Lines(log), CRLF);
      ParseLines(log);
      PackIsNotEmpty(log);
    } else {
      assert Lines(log) == [];
    }
  }

  /** Whatever is parsed out of lines without CR LF is clean. */
  lemma {:induction false} ParsedAreClean(lines: seq<string>, stage: Stage)
    requires (forall i :: 0 <= i < |lines| ==> !Contains(lines[i], CRLF)) && stage in ParseAll(lines)
    ensures Clean(stage)
    decreases |lines|
  {
    var short, last := lines[..|lines| - 1], lines[|lines| - 1];
    if stage in ParseAll(short) {
      ParsedAreClean(short, stage);
    } else {
      assert Parse(last) == [stage];
      ParsedIsClean(last, stage);
    }
  }

  lemma UnpackedIsClean(text: string, stage: Stage)
    requires stage in Unpack(text)
    ensures Clean(stage)
  {
    var lines := Split(text, CRLF);
    SplitSeparates(text, CRLF);
    forall i | 0 <= i < |lines| ensures !Contains(lines[i], CRLF) {
      CrlfShort(lines[i]);
    }
    StableSorts.SortedHas(ParseAll(lines), RankOf, stage);
    ParsedAreClean(lines, stage);
  }

  /** Unpacking a packed log gives back its stages, stably sorted by rank, exactly when every stage is clean. */
  lemma RoundTripExactly(log: seq<Stage>)
    ensures Unpack(Pack(log)) == SortStages(log) <==> AllClean(log)
  {
    if AllClean(log) {
      CleanRoundTrip(log);
    }
    if Unpack(Pack(log)) == SortStages(log) {
      forall i | 0 <= i < |log| ensures Clean(log[i]) {
        StableSorts.SortedHas(log, RankOf, log[i]);
        UnpackedIsClean(Pack(log), log[i]);
      }
    }
  }

  /** The unpacked log of clean stages is the only list that is ordered by rank and has the packed stages of every rank in
      their order. */
  lemma UnpackedIsTheStableSort(log: seq<Stage>, sorted: seq<Stage>)
    requires AllClean(log) && StableSorts.Ordered(sorted, RankOf) && StableSorts.SameOfKeys(sorted, log, RankOf)
    ensures Unpack(Pack(log)) == sorted
  {
    CleanRoundTrip(log);
    StableSorts.SortIsStable(log, RankOf, 0);
    forall k: nat ensures StableSorts.SameOfKey(SortStages(log), sorted, RankOf, k) {
      StableSorts.SortIsStable(log, RankOf, k);
      assert StableSorts.SameOfKey(sorted, log, RankOf, k);
    }
    StableSorts.StableSortIsUnique(SortStages(log), sorted, RankOf);
  }

  /** It is enough that names have no colon and no CR LF, and that actions are clean and never missing. */
  lemma NoColonIsEnough(stage: Stage)
    requires ':' !in stage.name && !Contains(stage.name, CRLF) && |stage.actions| > 0
    requires forall i :: 0 <= i < |stage.actions| ==> CleanAction(stage.actions[i])
    ensures Clean(stage)
  {
    var t := stage.name + "::";
    forall i | 0 <= i <= |t| ensures !At(t, i, COLONS) {
      if i + 3 <= |t| {
        assert t[i..i + 3][0] == t[i] && t[i] == stage.name[i] && stage.name[i] in stage.name;
      }
    }
  }

  // -------------------------------------------------------------------------------------------- the order of stages

  /** The stages in the order in which they are shown. */
  function StageNames(): seq<string> {
    ["RSS", "Source", "Download", "Servers", "Repair", "Filejoin", "Unpack", "Deobfuscate", "Script"]
  }

  /** A stage of this name is shown at this place; all other names come last, together. */
  predicate HasPlace(name: string, place: nat) {
    if place < 9 then name == StageNames()[place] else place == 9 && name !in StageNames()
  }

  lemma PlacesRank(a: string, b: string, i: nat, j: nat)
    requires HasPlace(a, i) && HasPlace(b, j)
    ensures Rank(a) <= Rank(b) <==> i <= j
  {
    RankFits(a, i);
    RankFits(b, j);
  }

  lemma RankFits(name: string, place: nat)
    requires HasPlace(name, place)
    ensures if place < 9 then Rank(name) == place else Rank(name) > 8
    ensures place == 9 ==> Rank(name) == 100
  {
    var names := StageNames();
    if place == 9 {
      assert names[0] != name && names[1] != name && names[2] != name && names[3] != name && names[4] != name;
      assert names[5] != name && names[6] != name && names[7] != name && names[8] != name;
    }
  }

  /** Whatever the text is, its stages are shown in the order of their places. */
  lemma UnpackedInOrder(text: string, a: nat, b: nat, i: nat, j: nat)
    requires a < b < |Unpack(text)| && HasPlace(Unpack(text)[a].name, i) && HasPlace(Unpack(text)[b].name, j)
    ensures i <= j
  {
    StableSorts.SortIsStable(ParseAll(Split(text, CRLF)), RankOf, 0);
    PlacesRank(Unpack(text)[a].name, Unpack(text)[b].name, i, j);
  }
}
