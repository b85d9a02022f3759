/** The one-pass readers of a finished transcript (internal/transcript/result.go), over decoded lines. */
module Results {
  import opened Wrappers
  import opened Strings

  datatype Kind = User | Assistant | Housekeeping

  datatype Block =
    | Text(text: string)
    | ToolUse(id: string, name: string)
    | ToolResult(toolUseID: string, isError: bool, content: string)
    | OtherBlock

  datatype Content = NoContent | StringContent(text: string) | BlockContent(blocks: seq<Block>)

  datatype Usage = Usage(input: int, output: int, cacheRead: int, cacheCreation: int)

  datatype Message = Message(content: Content, model: string, usage: Usage, stopReason: string)

  datatype Line = Malformed | Entry(kind: Kind, message: Option<Message>)

  datatype TurnTokens = TurnTokens(model: string, usage: Usage)

  const NO_USAGE := Usage(0, 0, 0, 0)

  /** A line without a message decodes to an empty one where the reader does not tell the two apart. */
  function MessageOf(line: Line): Message
    requires line.Entry?
  {
    if line.message.Some? then line.message.value else Message(NoContent, "", NO_USAGE, "")
  }

  // ---------------------------------------------------------------- SumTurnTokens

  predicate IsPrompt(line: Line) {
    line.Entry? && line.kind.User? && MessageOf(line).content.StringContent?
  }

  predicate Uses(line: Line, model: string) {
    line.Entry? && line.kind.Assistant? && MessageOf(line).model == model
  }

  function Plus(a: Usage, b: Usage): Usage {
    Usage(a.input + b.input, a.output + b.output, a.cacheRead + b.cacheRead, a.cacheCreation + b.cacheCreation)
  }

  /** What the assistant lines of a model used together. */
  function Total(lines: seq<Line>, model: string): Usage {
    if lines == [] then NO_USAGE
    else
      var before, last := Total(lines[..|lines| - 1], model), lines[|lines| - 1];
      if Uses(last, model) then Plus(before, MessageOf(last).usage) else before
  }

  datatype Field = InputTokens | OutputTokens | CacheReadTokens | CacheCreationTokens

  function Count(u: Usage, field: Field): int {
    match field
    case InputTokens => u.input
    case OutputTokens => u.output
    case CacheReadTokens => u.cacheRead
    case CacheCreationTokens => u.cacheCreation
  }

  /** The counts one field of a model's usage shows, line by line. */
  function Counts(lines: seq<Line>, model: string, field: Field): seq<int> {
    if lines == [] then []
    else (if Uses(lines[0], model) then [Count(MessageOf(lines[0]).usage, field)] else []) +
         Counts(lines[1..], model, field)
  }

  function Sum(counts: seq<int>): int {
    if counts == [] then 0 else counts[0] + Sum(counts[1..])
  }

  lemma {:induction false} SumAppend(counts: seq<int>, n: int)
    ensures Sum(counts + [n]) == Sum(counts) + n
  {
    if counts == [] {
      assert [n][1..] == [];
    } else {
      SumAppend(counts[1..], n);
      assert (counts + [n])[1..] == counts[1..] + [n];
    }
  }

  lemma {:induction false} CountsAppend(lines: seq<Line>, last: Line, model: string, field: Field)
    ensures Counts(lines + [last], model, field) ==
            Counts(lines, model, field) + if Uses(last, model) then [Count(MessageOf(last).usage, field)] else []
  {
    if lines == [] {
      assert [last][1..] == [];
    } else {
      CountsAppend(lines[1..], last, model, field);
      assert (lines + [last])[1..] == lines[1..] + [last];
    }
  }

  /** Each field is added up on its own. */
  lemma {:induction false} TotalIsSums(lines: seq<Line>, model: string, field: Field)
    ensures Count(Total(lines, model), field) == Sum(Counts(lines, model, field))
  {
    if lines != [] {
      var front, last := lines[..|lines| - 1], lines[|lines| - 1];
      TotalIsSums(front, model, field);
      assert front + [last] == lines;
      CountsAppend(front, last, model, field);
      assert Counts(front, model, field) + [] == Counts(front, model, field);
      if Uses(last, model) {
        SumAppend(Counts(front, model, field), Count(MessageOf(last).usage, field));
      }
    }
  }

  /** The models of the assistant lines, each once, as they first turn up. */
  function Models(lines: seq<Line>): seq<string> {
    if lines == [] then []
    else
      var before, last := Models(lines[..|lines| - 1]), lines[|lines| - 1];
      if last.Entry? && last.kind.Assistant? && MessageOf(last).model !in before then before + [MessageOf(last).model]
      else before
  }

  /** Where the last turn starts: after the last typed prompt. */
  function TurnStart(lines: seq<Line>): (p: nat)
    ensures p <= |lines|
    ensures p > 0 ==> IsPrompt(lines[p - 1])
    ensures forall i :: p <= i < |lines| ==> !IsPrompt(lines[i])
  {
    if lines == [] then 0
    else if IsPrompt(lines[|lines| - 1]) then |lines|
    else TurnStart(lines[..|lines| - 1])
  }

  /** The first line that uses a model, or the number of lines. */
  function FirstUse(lines: seq<Line>, model: string): (i: nat)
    ensures i <= |lines|
    ensures i < |lines| ==> Uses(lines[i], model)
    ensures forall j :: 0 <= j < i ==> !Uses(lines[j], model)
  {
    if lines == [] then 0
    else
      var i := FirstUse(lines[..|lines| - 1], model);
      if i < |lines| - 1 || Uses(lines[|lines| - 1], model) then i else |lines|
  }

  /** The models are exactly those used, none twice, and in the order of their first use. */
  lemma {:induction false} ModelsInFirstSeenOrder(lines: seq<Line>)
    ensures forall m :: m in Models(lines) <==> FirstUse(lines, m) < |lines|
    ensures forall i, j :: 0 <= i < j < |Models(lines)| ==>
              FirstUse(lines, Models(lines)[i]) < FirstUse(lines, Models(lines)[j])
  {
    if lines != [] {
      var front := lines[..|lines| - 1];
      ModelsInFirstSeenOrder(front);
      forall m ensures m in Models(lines) <==> FirstUse(lines, m) < |lines| {
        assert m in Models(front) <==> FirstUse(front, m) < |front|;
      }
      forall i, j | 0 <= i < j < |Models(lines)|
        ensures FirstUse(lines, Models(lines)[i]) < FirstUse(lines, Models(lines)[j])
      {
        assert Models(front)[i] in Models(front);
        if j < |Models(front)| {
          assert Models(front)[j] in Models(front);
        }
      }
    }
  }

  /** The accumulators hold a turn's models, in order, and their totals. */
  ghost predicate Tallied(turn: seq<Line>, byModel: map<string, TurnTokens>, order: seq<string>) {
    && order == Models(turn)
    && (forall m :: m in byModel <==> m in order)
    && (forall m :: m in byModel ==> byModel[m] == TurnTokens(m, Total(turn, m)))
  }

  lemma TalliedSkips(turn: seq<Line>, line: Line, byModel: map<string, TurnTokens>, order: seq<string>)
    requires Tallied(turn, byModel, order) && !(line.Entry? && line.kind.Assistant?)
    ensures Tallied(turn + [line], byModel, order)
  {
    assert (turn + [line])[..|turn|] == turn;
  }

  method Tally(ghost turn: seq<Line>, line: Line, byModel: map<string, TurnTokens>, order: seq<string>)
    returns (byModel': map<string, TurnTokens>, order': seq<string>)
    requires Tallied(turn, byModel, order) && line.Entry? && line.kind.Assistant?
    ensures Tallied(turn + [line], byModel', order')
  {
    byModel', order' := byModel, order;
    var message := MessageOf(line);
    if message.model !in byModel {
      NeverUsed(turn, message.model);
      byModel' := byModel[message.model := TurnTokens(message.model, NO_USAGE)];
      order' := order + [message.model];
    }
    var t := byModel'[message.model];
    byModel' := byModel'[message.model := TurnTokens(t.model, Plus(t.usage, message.usage))];
    assert (turn + [line])[..|turn|] == turn;
  }

  /** The token totals of the last turn. None when the transcript cannot be read. */
  method SumTurnTokens(transcript: Option<seq<Line>>) returns (out: Option<seq<TurnTokens>>)
    ensures out.Some? <==> transcript.Some?
    ensures out.Some? ==>
              var turn := transcript.value[TurnStart(transcript.value)..];
              && |out.value| == |Models(turn)|
              && forall i :: 0 <= i < |out.value| ==>
                   && out.value[i].model == Models(turn)[i]
                   && forall f :: Count(out.value[i].usage, f) == Sum(Counts(turn, Models(turn)[i], f))
  {
    if transcript == None {
      return None;
    }
    var lines := transcript.value;
    var byModel: map<string, TurnTokens>, order: seq<string> := map[], [];
    ghost var turn: seq<Line> := [];
    var i := 0;
    while i < |lines|
      invariant 0 <= i <= |lines| && turn == lines[TurnStart(lines[..i])..i]
      invariant Tallied(turn, byModel, order)
    {
      var line := lines[i];
      assert lines[..i + 1][..i] == lines[..i];
      i := i + 1;
      if line.Entry? && IsPrompt(line) {
        byModel, order, turn := map[], [], [];
        continue;
      }
      if line.Malformed? || !line.kind.Assistant? {
        TalliedSkips(turn, line, byModel, order);
      } else {
        byModel, order := Tally(turn, line, byModel, order);
      }
      turn := turn + [line];
    }
    assert lines[..i] == lines;
    var totals := InOrder(turn, byModel, order);
    forall i, f | 0 <= i < |totals|
      ensures Count(totals[i].usage, f) == Sum(Counts(turn, Models(turn)[i], f))
    {
      TotalIsSums(turn, Models(turn)[i], f);
    }
    out := Some(totals);
  }

  method InOrder(ghost turn: seq<Line>, byModel: map<string, TurnTokens>, order: seq<string>)
    returns (out: seq<TurnTokens>)
    requires Tallied(turn, byModel, order)
    ensures |out| == |Models(turn)|
    ensures forall i :: 0 <= i < |out| ==> out[i] == TurnTokens(Models(turn)[i], Total(turn, Models(turn)[i]))
  {
    out := [];
    var k := 0;
    while k < |order|
      invariant 0 <= k <= |order| && |out| == k
      invariant forall j :: 0 <= j < k ==> out[j] == TurnTokens(order[j], Total(turn, order[j]))
    {
      assert order[k] in order;
      out := out + [byModel[order[k]]];
      k := k + 1;
    }
  }

  lemma {:induction false} NeverUsed(lines: seq<Line>, model: string)
    requires model !in Models(lines)
    ensures Total(lines, model) == NO_USAGE
  {
    if lines != [] {
      NeverUsed(lines[..|lines| - 1], model);
    }
  }

  // ---------------------------------------------------------------- the last conversation entry

  const INTERRUPT_MARKER_PREFIX := "[Request interrupted by user"

  predicate IsTalk(line: Line) {
    line.Entry? && (line.kind.User? || line.kind.Assistant?)
  }

  predicate MarksInterrupt(line: Line) {
    && line.Entry? && line.kind.User? && line.message.Some? && line.message.value.content.BlockContent?
    && exists i :: 0 <= i < |line.message.value.content.blocks|
                   && line.message.value.content.blocks[i].Text?
                   && HasPrefix(line.message.value.content.blocks[i].text, INTERRUPT_MARKER_PREFIX)
  }

  /** k is the last conversation entry. */
  predicate IsLastTalk(lines: seq<Line>, k: nat) {
    k < |lines| && IsTalk(lines[k]) && forall j :: k < j < |lines| ==> !IsTalk(lines[j])
  }

  /** The role and stop reason of the last conversation entry; Housekeeping when there is none. */
  method LastMessage(transcript: Option<seq<Line>>) returns (role: Kind, stopReason: string, readable: bool)
    ensures readable <==> transcript.Some?
    ensures !readable ==> role == Housekeeping && stopReason == ""
    ensures readable ==> (role == Housekeeping <==> forall j :: 0 <= j < |transcript.value| ==> !IsTalk(transcript.value[j]))
    ensures role == Housekeeping ==> stopReason == ""
    ensures readable ==> forall k: nat :: IsLastTalk(transcript.value, k) ==>
              && role == transcript.value[k].kind && stopReason == MessageOf(transcript.value[k]).stopReason
  {
    role, stopReason, readable := Housekeeping, "", transcript.Some?;
    if !readable {
      return;
    }
    var lines := transcript.value;
    var i := 0;
    while i < |lines|
      invariant 0 <= i <= |lines|
      invariant role == Housekeeping <==> forall j :: 0 <= j < i ==> !IsTalk(lines[j])
      invariant role == Housekeeping ==> stopReason == ""
      invariant forall k :: 0 <= k < i && IsTalk(lines[k]) && (forall j :: k < j < i ==> !IsTalk(lines[j])) ==>
                              role == lines[k].kind && stopReason == MessageOf(lines[k]).stopReason
    {
      if IsTalk(lines[i]) {
        role := lines[i].kind;
        stopReason := if lines[i].message.Some? then lines[i].message.value.stopReason else "";
      }
      i := i + 1;
    }
  }

  /** Whether the transcript ends in an interruption: its last conversation entry carries the marker. */
  method WasInterrupted(transcript: Option<seq<Line>>) returns (interrupted: bool)
    ensures interrupted <==>
            transcript.Some? && exists k: nat :: IsLastTalk(transcript.value, k) && MarksInterrupt(transcript.value[k])
  {
    if transcript == None {
      return false;
    }
    var lines := transcript.value;
    interrupted := false;
    ghost var last := None;
    var i := 0;
    while i < |lines|
      invariant 0 <= i <= |lines|
      invariant last == None ==> forall j :: 0 <= j < i ==> !IsTalk(lines[j])
      invariant last.Some? ==> 0 <= last.value < i && IsTalk(lines[last.value])
      invariant last.Some? ==> forall j :: last.value < j < i ==> !IsTalk(lines[j])
      invariant interrupted <==> last.Some? && MarksInterrupt(lines[last.value])
    {
      var line := lines[i];
      if IsTalk(line) {
        last := Some(i);
        interrupted := false;
        if line.kind.User? && line.message.Some? && line.message.value.content.BlockContent? {
          interrupted := HasMarker(line.message.value.content.blocks);
        }
      }
      i := i + 1;
    }
    if last.Some? {
      assert IsLastTalk(lines, last.value);
    }
  }

  method HasMarker(blocks: seq<Block>) returns (found: bool)
    ensures found <==> exists i :: 0 <= i < |blocks| && blocks[i].Text?
                                   && HasPrefix(blocks[i].text, INTERRUPT_MARKER_PREFIX)
  {
    found := false;
    var i := 0;
    while i < |blocks|
      invariant 0 <= i <= |blocks|
      invariant forall j :: 0 <= j < i ==> !(blocks[j].Text? && HasPrefix(blocks[j].text, INTERRUPT_MARKER_PREFIX))
    {
      if blocks[i].Text? && HasPrefix(blocks[i].text, INTERRUPT_MARKER_PREFIX) {
        return true;
      }
      i := i + 1;
    }
  }

  // ---------------------------------------------------------------- FailedCriticalOutcome

  const SUBMIT_OUTCOME := "submit_outcome"
  const CRITICAL_OUTCOME_TOOLS: set<string> := {SUBMIT_OUTCOME}

  predicate SeparatorAt(name: string, k: nat) {
    k + 2 <= |name| && name[k] == '_' && name[k + 1] == '_'
  }

  /** Where the last "__" of a name starts, if there is one. */
  function LastSeparator(name: string): (at: Option<nat>)
    ensures at.Some? ==> SeparatorAt(name, at.value)
    ensures forall k: nat :: SeparatorAt(name, k) ==> at.Some? && k <= at.value
  {
    if |name| < 2 then None
    else if SeparatorAt(name, |name| - 2) then Some(|name| - 2)
    else
      assert forall k: nat :: SeparatorAt(name, k) ==> SeparatorAt(name[..|name| - 1], k);
      LastSeparator(name[..|name| - 1])
  }

  function BareToolName(name: string): string {
    match LastSeparator(name)
    case Some(i) => name[i + 2..]
    case None => name
  }

  lemma LastSeparatorIs(name: string, k: nat)
    requires SeparatorAt(name, k) && forall j: nat :: SeparatorAt(name, j) ==> j <= k
    ensures LastSeparator(name) == Some(k)
  {
  }

  /** A namespace is cut off up to its last separator, and a name without one is left alone. */
  lemma BareNameIs(namespace: string, bare: string)
    requires forall k: nat :: !SeparatorAt("_" + bare, k)
    ensures BareToolName(namespace + "__" + bare) == bare && BareToolName(bare) == bare
  {
    var name, tail := namespace + "__" + bare, "_" + bare;
    forall k: nat | SeparatorAt(name, k)
      ensures k <= |namespace|
    {
      if k > |namespace| {
        assert name[|namespace| + 1..] == tail;
        assert SeparatorAt(tail, k - |namespace| - 1);
      }
    }
    LastSeparatorIs(name, |namespace|);
    forall k: nat | SeparatorAt(bare, k)
      ensures false
    {
      assert SeparatorAt(tail, k + 1);
    }
  }

  /** A tool's own name, or that name behind a namespace. */
  predicate Names(name: string, tool: string) {
    name == tool || (|name| >= |tool| + 2 && name[|name| - |tool| - 2..] == "__" + tool)
  }

  lemma BareIsNamed(name: string, tool: string)
    requires forall k: nat :: !SeparatorAt("_" + tool, k)
    ensures BareToolName(name) == tool <==> Names(name, tool)
  {
    if name == tool {
      BareNameIs("", tool);
    } else if Names(name, tool) {
      var namespace := name[..|name| - |tool| - 2];
      BareNameIs(namespace, tool);
      assert name == namespace + "__" + tool;
    }
    if LastSeparator(name).Some? && BareToolName(name) == tool {
      assert name[LastSeparator(name).value..] == "__" + tool;
    }
  }

  predicate NamesOutcome(name: string) {
    Names(name, "submit_outcome")
  }

  /** The tools whose rejection matters are submit_outcome, under its own name or behind any namespace. */
  lemma CriticalIsOutcome(name: string)
    ensures BareToolName(name) in CRITICAL_OUTCOME_TOOLS <==> NamesOutcome(name)
  {
    NoSeparator();
    BareIsNamed(name, "submit_outcome");
  }

  lemma NoSeparator()
    ensures forall k: nat :: !SeparatorAt("_" + "submit_outcome", k)
  {
    assert "_" + "submit_outcome" == "_submit_outcome";
  }

  /** A call of submit_outcome that has an id. */
  predicate IsCriticalUse(b: Block) {
    b.ToolUse? && b.id != "" && NamesOutcome(b.name)
  }

  function BlocksOf(line: Line): seq<Block> {
    if line.Entry? && line.message.Some? && line.message.value.content.BlockContent?
    then line.message.value.content.blocks
    else []
  }

  function AllBlocks(lines: seq<Line>): seq<Block> {
    if lines == [] then [] else AllBlocks(lines[..|lines| - 1]) + BlocksOf(lines[|lines| - 1])
  }

  /** Block k is the result of a critical call made earlier. */
  predicate Correlated(blocks: seq<Block>, k: nat) {
    && k < |blocks| && blocks[k].ToolResult?
    && exists j :: 0 <= j < k && IsCriticalUse(blocks[j]) && blocks[j].id == blocks[k].toolUseID
  }

  /** Block k is the last result of any critical call. */
  ghost predicate DecidingResult(blocks: seq<Block>, k: nat) {
    Correlated(blocks, k) && forall j: nat :: j > k ==> !Correlated(blocks, j)
  }

  /** The ids of the critical calls made. */
  function CallIds(blocks: seq<Block>): set<string> {
    if blocks == [] then {}
    else
      var b := blocks[|blocks| - 1];
      CallIds(blocks[..|blocks| - 1]) + if IsCriticalUse(b) then {b.id} else {}
  }

  /** The last result of a critical call. */
  function Verdict(blocks: seq<Block>): (r: Option<Block>)
    ensures r.Some? ==> r.value.ToolResult?
  {
    if blocks == [] then None
    else
      var front, b := blocks[..|blocks| - 1], blocks[|blocks| - 1];
      if b.ToolResult? && b.toolUseID in CallIds(front) then Some(b) else Verdict(front)
  }

  lemma {:induction false} CallIdsAreCalls(blocks: seq<Block>)
    ensures "" !in CallIds(blocks)
    ensures forall id :: id in CallIds(blocks) <==>
              exists j :: 0 <= j < |blocks| && IsCriticalUse(blocks[j]) && blocks[j].id == id
  {
    if blocks != [] {
      var front := blocks[..|blocks| - 1];
      CallIdsAreCalls(front);
      assert forall j :: 0 <= j < |front| ==> front[j] == blocks[j];
    }
  }

  lemma CorrelatedFront(blocks: seq<Block>, k: nat)
    requires k < |blocks| - 1
    ensures Correlated(blocks, k) == Correlated(blocks[..|blocks| - 1], k)
  {
    assert forall j :: 0 <= j <= k ==> blocks[..|blocks| - 1][j] == blocks[j];
  }

  /** The remembered verdict is the deciding result, and there is one as soon as any result is correlated. */
  lemma {:induction false} VerdictDecides(blocks: seq<Block>)
    ensures Verdict(blocks) == None ==> forall k: nat :: !Correlated(blocks, k)
    ensures Verdict(blocks).Some? ==> exists k: nat :: DecidingResult(blocks, k) && blocks[k] == Verdict(blocks).value
  {
    if blocks != [] {
      var front, last := blocks[..|blocks| - 1], |blocks| - 1;
      VerdictDecides(front);
      CallIdsAreCalls(front);
      assert forall j :: 0 <= j < |front| ==> front[j] == blocks[j];
      assert Correlated(blocks, last) <==> blocks[last].ToolResult? && blocks[last].toolUseID in CallIds(front);
      forall k: nat | k < last ensures Correlated(blocks, k) == Correlated(front, k) {
        CorrelatedFront(blocks, k);
      }
      if Correlated(blocks, last) {
        assert DecidingResult(blocks, last);
      } else if Verdict(front).Some? {
        var k: nat :| DecidingResult(front, k) && front[k] == Verdict(front).value;
        assert DecidingResult(blocks, k);
      }
    }
  }

  /** What the scan keeps: the calls seen, and per tool name the last result and whether it failed. */
  datatype Scan = Scan(
    toolUseByID: map<string, string>, lastResult: map<string, string>, lastFailed: map<string, bool>)

  ghost predicate RemembersCalls(blocks: seq<Block>, uses: map<string, string>) {
    && (forall id :: id in uses <==> id in CallIds(blocks))
    && (forall id :: id in uses ==> uses[id] in CRITICAL_OUTCOME_TOOLS)
  }

  /** Whatever name has a verdict has that of the last critical result, and there is such a name if there is one. */
  ghost predicate RemembersVerdict(verdict: Option<Block>, result: map<string, string>, failed: map<string, bool>) {
    && (forall name :: name in failed ==>
          && name in CRITICAL_OUTCOME_TOOLS && name in result
          && verdict.Some? && verdict.value.ToolResult? && failed[name] == verdict.value.isError
          && (failed[name] ==> result[name] == verdict.value.content))
    && (verdict.Some? ==> exists name :: name in failed)
  }

  ghost predicate Remembers(blocks: seq<Block>, s: Scan) {
    RemembersCalls(blocks, s.toolUseByID) && RemembersVerdict(Verdict(blocks), s.lastResult, s.lastFailed)
  }

  /** There is one critical tool, so the verdicts are about one name. */
  lemma OneCriticalTool(a: string, b: string)
    requires a in CRITICAL_OUTCOME_TOOLS && b in CRITICAL_OUTCOME_TOOLS
    ensures a == b
  {
  }

  method RecordResult(name: string, ghost before: Option<Block>, b: Block,
                      lastResult: map<string, string>, lastFailed: map<string, bool>)
    returns (result: map<string, string>, failed: map<string, bool>)
    requires b.ToolResult? && name in CRITICAL_OUTCOME_TOOLS
    requires RemembersVerdict(before, lastResult, lastFailed)
    ensures RemembersVerdict(Some(b), result, failed)
  {
    forall other | other in lastFailed ensures other == name {
      OneCriticalTool(other, name);
    }
    if b.isError {
      result, failed := lastResult[name := b.content], lastFailed[name := true];
    } else {
      result, failed := lastResult[name := ""], lastFailed[name := false];
    }
    assert name in failed;
  }

  /** One block of the scan. */
  method ScanBlock(ghost seen: seq<Block>, b: Block, s: Scan) returns (r: Scan)
    requires Remembers(seen, s)
    ensures Remembers(seen + [b], r)
  {
    assert (seen + [b])[..|seen|] == seen;
    r := s;
    match b {
      case ToolUse(id, name) =>
        var bare := BareToolName(name);
        assert bare in CRITICAL_OUTCOME_TOOLS <==> NamesOutcome(name) by {
          CriticalIsOutcome(name);
        }
        if bare in CRITICAL_OUTCOME_TOOLS && id != "" {
          r := r.(toolUseByID := r.toolUseByID[id := bare]);
        }
      case ToolResult(id, _, _) =>
        CallIdsAreCalls(seen);
        if id != "" && id in r.toolUseByID {
          var result, failed := RecordResult(r.toolUseByID[id], Verdict(seen), b, r.lastResult, r.lastFailed);
          r := r.(lastResult := result, lastFailed := failed);
        }
      case _ =>
    }
  }

  method ScanLine(ghost seen: seq<Block>, blocks: seq<Block>, s: Scan) returns (r: Scan)
    requires Remembers(seen, s)
    ensures Remembers(seen + blocks, r)
  {
    r := s;
    ghost var done := seen;
    var n := 0;
    while n < |blocks|
      invariant 0 <= n <= |blocks| && done == seen + blocks[..n]
      invariant Remembers(done, r)
    {
      r := ScanBlock(done, blocks[n], r);
      done := done + [blocks[n]];
      n := n + 1;
    }
    assert blocks[..n] == blocks;
  }

  method ScanBlocks(lines: seq<Line>) returns (s: Scan)
    ensures Remembers(AllBlocks(lines), s)
  {
    s := Scan(map[], map[], map[]);
    ghost var seen: seq<Block> := [];
    var i := 0;
    while i < |lines|
      invariant 0 <= i <= |lines| && seen == AllBlocks(lines[..i])
      invariant Remembers(seen, s)
    {
      var blocks := BlocksOf(lines[i]);
      s := ScanLine(seen, blocks, s);
      seen := seen + blocks;
      assert lines[..i + 1][..i] == lines[..i];
      i := i + 1;
    }
    assert lines[..i] == lines;
  }

  /** Block k is the deciding result and it is an error. */
  ghost predicate Fails(blocks: seq<Block>, k: nat) {
    DecidingResult(blocks, k) && blocks[k].isError
  }

  /** The last result of a critical call is an error. */
  ghost predicate EndsInFailure(blocks: seq<Block>) {
    exists k: nat :: Fails(blocks, k)
  }

  lemma VerdictMeans(blocks: seq<Block>, s: Scan)
    requires Remembers(blocks, s)
    ensures (exists name :: name in s.lastFailed && s.lastFailed[name]) <==> EndsInFailure(blocks)
    ensures forall name, k: nat :: name in s.lastFailed && s.lastFailed[name] && Fails(blocks, k) ==>
              name in CRITICAL_OUTCOME_TOOLS && s.lastResult[name] == blocks[k].content
  {
    VerdictDecides(blocks);
    if Verdict(blocks).Some? {
      var k: nat :| DecidingResult(blocks, k) && blocks[k] == Verdict(blocks).value;
      assert forall j: nat :: DecidingResult(blocks, j) ==> j == k;
      var name :| name in s.lastFailed;
      if blocks[k].isError {
        assert Fails(blocks, k) && s.lastFailed[name];
      }
    }
  }

  /** The failure of the last critical call that has a result, if that result is an error. */
  method FailedCriticalOutcome(transcript: Option<seq<Line>>)
    returns (tool: string, errText: string, found: bool, readable: bool)
    ensures readable <==> transcript.Some?
    ensures readable ==> (found <==> EndsInFailure(AllBlocks(transcript.value)))
    ensures found ==> readable && tool == "submit_outcome"
    ensures found ==> forall k: nat :: Fails(AllBlocks(transcript.value), k) ==>
                                         errText == AllBlocks(transcript.value)[k].content
  {
    tool, errText, found, readable := "", "", false, transcript.Some?;
    if !readable {
      return;
    }
    var s := ScanBlocks(transcript.value);
    ghost var blocks := AllBlocks(transcript.value);
    VerdictMeans(blocks, s);
    if name :| name in s.lastFailed && s.lastFailed[name] {
      tool, errText, found := name, s.lastResult[name], true;
    }
  }
}
