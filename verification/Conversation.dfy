/** Agent histories: trimming them, and turning them into the alternating turns the model API accepts. */
module Conversation {
  import opened Basics

  datatype Role = System | User | Assistant | Tool

  datatype Part = TextPart(text: string) | ImagePart(url: string) | OtherPart

  datatype Content = Text(text: string) | Parts(parts: seq<Part>) | Other

  datatype Call = Call(id: string, name: string, arguments: string)

  datatype Message = Message(role: Role, content: Content, callId: Option<string>, calls: Option<seq<Call>>)

  datatype Block =
    | TextBlock(text: string)
    | ImageBlock(mediaType: string, data: string)
    | ToolUse(id: string, name: string, input: string)
    | ToolResult(id: string, content: string)

  datatype Side = UserSide | AssistantSide

  datatype Turn = Turn(side: Side, blocks: seq<Block>)

  /** A block together with the side it speaks for. */
  datatype Piece = Piece(side: Side, block: Block)

  datatype Fault = SystemNotText | OddContent | OddBlock | MissingCallId | BadArguments

  /** JSON parsing and printing belong to the platform; `write` prints a tool's input as an argument string. */
  datatype Json = Json(parse: string -> Option<string>, write: string -> string, show: Content -> string)

  /** What is printed parses back. */
  ghost predicate Lawful(json: Json) {
    forall input: string :: json.parse(json.write(input)) == Some(input)
  }

  // ---------------------------------------------------------------- blocks

  predicate Base64Char(c: char) {
    'A' <= c <= 'Z' || 'a' <= c <= 'z' || '0' <= c <= '9' || c == '+' || c == '/' || c == '='
  }

  predicate Base64(data: string) {
    data != [] && forall i :: 0 <= i < |data| ==> Base64Char(data[i])
  }

  function Embedded(url: string, mediaType: string): Option<Block> {
    var head := "data:" + mediaType + ";base64,";
    if head <= url && Base64(url[|head|..]) then Some(ImageBlock(mediaType, url[|head|..])) else None
  }

  /** Only embedded png, jpeg, gif and webp images are passed on; remote ones are never fetched. */
  function ImageOf(url: string): Option<Block> {
    if Embedded(url, "image/png").Some? then Embedded(url, "image/png")
    else if Embedded(url, "image/jpeg").Some? then Embedded(url, "image/jpeg")
    else if Embedded(url, "image/gif").Some? then Embedded(url, "image/gif")
    else Embedded(url, "image/webp")
  }

  function PartBlock(part: Part): Option<Block> {
    match part
    case TextPart(text) => Some(TextBlock(text))
    case ImagePart(url) => ImageOf(url)
    case OtherPart => None
  }

  function PartBlocks(parts: seq<Part>): Result<seq<Block>, Fault> {
    if parts == [] then Ok([])
    else
      match PartBlock(parts[0])
      case None => Err(OddBlock)
      case Some(block) =>
        match PartBlocks(parts[1..])
        case Err(fault) => Err(fault)
        case Ok(rest) => Ok([block] + rest)
  }

  function ContentBlocks(content: Content): Result<seq<Block>, Fault> {
    match content
    case Text(text) => Ok(if text == "" then [] else [TextBlock(text)])
    case Parts(parts) => PartBlocks(parts)
    case Other => Err(OddContent)
  }

  function UseBlocks(json: Json, calls: seq<Call>): Result<seq<Block>, Fault> {
    if calls == [] then Ok([])
    else
      match json.parse(calls[0].arguments)
      case None => Err(BadArguments)
      case Some(input) =>
        match UseBlocks(json, calls[1..])
        case Err(fault) => Err(fault)
        case Ok(rest) => Ok([ToolUse(calls[0].id, calls[0].name, input)] + rest)
  }

  function SideOf(role: Role): Side {
    if role.Assistant? then AssistantSide else UserSide
  }

  /** The blocks of one message that is not the system prompt. */
  function BlocksOf(json: Json, m: Message): Result<seq<Block>, Fault> {
    match m.role
    case Tool =>
      if m.callId.None? || m.callId.value == "" then Err(MissingCallId)
      else Ok([ToolResult(m.callId.value, if m.content.Text? then m.content.text else json.show(m.content))])
    case Assistant =>
      (match ContentBlocks(m.content)
       case Err(fault) => Err(fault)
       case Ok(said) =>
         if m.calls.None? then Ok(said)
         else
           match UseBlocks(json, m.calls.value)
           case Err(fault) => Err(fault)
           case Ok(uses) => Ok(said + uses))
    case _ => ContentBlocks(m.content)
  }

  function Pieced(side: Side, blocks: seq<Block>): (r: seq<Piece>)
    ensures |r| == |blocks|
    ensures forall i :: 0 <= i < |r| ==> r[i] == Piece(side, blocks[i])
  {
    seq(|blocks|, i requires 0 <= i < |blocks| => Piece(side, blocks[i]))
  }

  function MessagePieces(json: Json, m: Message): Result<seq<Piece>, Fault> {
    if m.role.System? then (if m.content.Text? then Ok([]) else Err(SystemNotText))
    else
      match BlocksOf(json, m)
      case Err(fault) => Err(fault)
      case Ok(blocks) => Ok(Pieced(SideOf(m.role), blocks))
  }

  /** Every block of a history in order, or the first fault. */
  function Pieces(json: Json, history: seq<Message>): Result<seq<Piece>, Fault> {
    if history == [] then Ok([])
    else
      match Pieces(json, history[..|history| - 1])
      case Err(fault) => Err(fault)
      case Ok(before) =>
        match MessagePieces(json, history[|history| - 1])
        case Err(fault) => Err(fault)
        case Ok(last) => Ok(before + last)
  }

  // ----------------------------------------------------------------- turns

  function Flatten(turns: seq<Turn>): seq<Piece> {
    if turns == [] then []
    else Flatten(turns[..|turns| - 1]) + Pieced(turns[|turns| - 1].side, turns[|turns| - 1].blocks)
  }

  predicate Alternating(turns: seq<Turn>) {
    && (forall k :: 0 <= k < |turns| ==> turns[k].blocks != [])
    && (forall k :: 0 < k < |turns| ==> turns[k].side != turns[k - 1].side)
  }

  /** Where turn k begins in the flattened history. */
  function Offset(turns: seq<Turn>, k: nat): nat
    requires k <= |turns|
  {
    if k == 0 then 0 else Offset(turns, k - 1) + |turns[k - 1].blocks|
  }

  lemma {:induction false} PrefixOffset(turns: seq<Turn>, n: nat, k: nat)
    requires k <= n <= |turns|
    ensures Offset(turns[..n], k) == Offset(turns, k)
  {
    if k > 0 {
      PrefixOffset(turns, n, k - 1);
    }
  }

  lemma {:induction false} FlattenSize(turns: seq<Turn>)
    ensures |Flatten(turns)| == Offset(turns, |turns|)
  {
    if turns != [] {
      FlattenSize(turns[..|turns| - 1]);
      PrefixOffset(turns, |turns| - 1, |turns| - 1);
    }
  }

  /** Block j of turn k is piece Offset(k) + j. */
  lemma {:induction false} PieceAt(turns: seq<Turn>, k: nat, j: nat)
    requires k < |turns| && j < |turns[k].blocks|
    ensures Offset(turns, k) + j < |Flatten(turns)|
    ensures Flatten(turns)[Offset(turns, k) + j] == Piece(turns[k].side, turns[k].blocks[j])
  {
    var n := |turns| - 1;
    FlattenSize(turns[..n]);
    PrefixOffset(turns, n, k);
    if k < n {
      PieceAt(turns[..n], k, j);
    } else {
      PrefixOffset(turns, n, n);
    }
  }

  /** A history has one grouping into alternating non-empty turns. */
  lemma {:induction false} GroupingUnique(a: seq<Turn>, b: seq<Turn>)
    requires Alternating(a) && Alternating(b) && Flatten(a) == Flatten(b)
    ensures a == b
  {
    if a == [] || b == [] {
      FlattenEmpty(a);
      FlattenEmpty(b);
    } else {
      LastTurns(a, b);
      GroupingUnique(a[..|a| - 1], b[..|b| - 1]);
      assert a == a[..|a| - 1] + [a[|a| - 1]] && b == b[..|b| - 1] + [b[|b| - 1]];
    }
  }

  lemma FlattenEmpty(a: seq<Turn>)
    requires Alternating(a)
    ensures Flatten(a) == [] <==> a == []
  {
  }

  lemma SplitLast(a: seq<Turn>)
    requires a != []
    ensures var m := |a| - 1;
            var cut := |Flatten(a)| - |a[m].blocks|;
            && cut >= 0
            && Flatten(a)[..cut] == Flatten(a[..m])
            && Flatten(a)[cut..] == Pieced(a[m].side, a[m].blocks)
  {
    var m := |a| - 1;
    assert Flatten(a) == Flatten(a[..m]) + Pieced(a[m].side, a[m].blocks);
  }

  lemma SameBlocks(x: Turn, y: Turn)
    requires x.side == y.side && Pieced(x.side, x.blocks) == Pieced(y.side, y.blocks)
    ensures x == y
  {
    forall i | 0 <= i < |x.blocks| ensures x.blocks[i] == y.blocks[i] {
      assert Pieced(x.side, x.blocks)[i] == Pieced(y.side, y.blocks)[i];
    }
  }

  /** The last turn is the longest run of pieces of one side at the end. */
  lemma {:induction false} LastTurns(a: seq<Turn>, b: seq<Turn>)
    requires Alternating(a) && Alternating(b) && Flatten(a) == Flatten(b) && a != [] && b != []
    ensures a[|a| - 1] == b[|b| - 1]
    ensures Flatten(a[..|a| - 1]) == Flatten(b[..|b| - 1])
  {
    SameLastSide(a, b);
    NotLonger(a, b);
    NotLonger(b, a);
    SplitLast(a);
    SplitLast(b);
    SameBlocks(a[|a| - 1], b[|b| - 1]);
  }

  lemma {:induction false} SameLastSide(a: seq<Turn>, b: seq<Turn>)
    requires Alternating(a) && Alternating(b) && Flatten(a) == Flatten(b) && a != [] && b != []
    ensures a[|a| - 1].side == b[|b| - 1].side
  {
    FlattenSize(a);
    FlattenSize(b);
    PieceAt(a, |a| - 1, |a[|a| - 1].blocks| - 1);
    PieceAt(b, |b| - 1, |b[|b| - 1].blocks| - 1);
  }

  lemma {:induction false} NotLonger(a: seq<Turn>, b: seq<Turn>)
    requires Alternating(a) && Alternating(b) && Flatten(a) == Flatten(b) && a != [] && b != []
    requires a[|a| - 1].side == b[|b| - 1].side
    ensures |a[|a| - 1].blocks| <= |b[|b| - 1].blocks|
  {
    var m, n := |a| - 1, |b| - 1;
    FlattenSize(a);
    FlattenSize(b);
    if |b[n].blocks| < |a[m].blocks| {
      if n > 0 {
        PieceAt(b, n - 1, |b[n - 1].blocks| - 1);
        PieceAt(a, m, |a[m].blocks| - |b[n].blocks| - 1);
        assert false;
      }
    }
  }

  // ------------------------------------------------------------ conversion

  function SystemTexts(history: seq<Message>): seq<string> {
    if history == [] then []
    else
      var last := history[|history| - 1];
      SystemTexts(history[..|history| - 1]) + if last.role.System? && last.content.Text? then [last.content.text] else []
  }

  function JoinBlank(texts: seq<string>): string {
    if texts == [] then ""
    else if |texts| == 1 then texts[0]
    else JoinBlank(texts[..|texts| - 1]) + "\n\n" + texts[|texts| - 1]
  }

  lemma {:induction false} FaultStays(json: Json, history: seq<Message>, n: nat)
    requires n <= |history| && Pieces(json, history[..n]).Err?
    ensures Pieces(json, history) == Pieces(json, history[..n])
  {
    if n < |history| {
      assert history[..|history| - 1][..n] == history[..n];
      FaultStays(json, history[..|history| - 1], n);
    } else {
      assert history[..n] == history;
    }
  }

  lemma PiecesNext(json: Json, history: seq<Message>, i: nat)
    requires i < |history| && Pieces(json, history[..i]).Ok?
    ensures MessagePieces(json, history[i]).Err? ==> Pieces(json, history) == Err(MessagePieces(json, history[i]).error)
    ensures MessagePieces(json, history[i]).Ok? ==>
              Pieces(json, history[..i + 1]) == Ok(Pieces(json, history[..i]).value + MessagePieces(json, history[i]).value)
    ensures SystemTexts(history[..i + 1]) == SystemTexts(history[..i]) +
              if history[i].role.System? && history[i].content.Text? then [history[i].content.text] else []
  {
    assert history[..i + 1][..i] == history[..i];
    if MessagePieces(json, history[i]).Err? {
      FaultStays(json, history, i + 1);
    }
  }

  // The blocks join the turn before when that speaks for the same side, and open a new turn otherwise.

  lemma JoinFits(turns: seq<Turn>, blocks: seq<Block>)
    requires Alternating(turns) && turns != [] && blocks != []
    ensures var last := turns[|turns| - 1];
            var more := turns[|turns| - 1 := Turn(last.side, last.blocks + blocks)];
            Alternating(more) && Flatten(more) == Flatten(turns) + Pieced(last.side, blocks)
  {
    var n := |turns| - 1;
    var last := turns[n];
    var more := turns[n := Turn(last.side, last.blocks + blocks)];
    assert more[..n] == turns[..n];
    assert Pieced(last.side, last.blocks + blocks) == Pieced(last.side, last.blocks) + Pieced(last.side, blocks);
  }

  lemma FlattenOpens(turns: seq<Turn>, turn: Turn)
    ensures Flatten(turns + [turn]) == Flatten(turns) + Pieced(turn.side, turn.blocks)
  {
    assert (turns + [turn])[..|turns|] == turns;
  }

  lemma OpenFits(turns: seq<Turn>, turn: Turn)
    requires Alternating(turns) && turn.blocks != [] && (turns != [] ==> turns[|turns| - 1].side != turn.side)
    ensures Alternating(turns + [turn])
  {
  }

  method Push(turns: seq<Turn>, side: Side, blocks: seq<Block>) returns (more: seq<Turn>)
    requires Alternating(turns)
    ensures Alternating(more) && Flatten(more) == Flatten(turns) + Pieced(side, blocks)
  {
    if blocks == [] {
      more := turns;
    } else if turns != [] && turns[|turns| - 1].side == side {
      JoinFits(turns, blocks);
      var last := turns[|turns| - 1];
      more := turns[|turns| - 1 := last.(blocks := last.blocks + blocks)];
    } else {
      OpenFits(turns, Turn(side, blocks));
      FlattenOpens(turns, Turn(side, blocks));
      more := turns + [Turn(side, blocks)];
    }
  }

  /**
   * Turns are grouped while reading; the result is the one alternating grouping of the history's
   * blocks, in their order, or the first message's fault.
   */
  method AnthropicHistory(json: Json, history: seq<Message>) returns (system: string, turns: Result<seq<Turn>, Fault>)
    ensures match Pieces(json, history)
            case Err(fault) => turns == Err(fault)
            case Ok(pieces) =>
              turns.Ok? && Alternating(turns.value) && Flatten(turns.value) == pieces && system == JoinBlank(SystemTexts(history))
  {
    var texts: seq<string> := [];
    var messages: seq<Turn> := [];
    system := "";
    var i := 0;
    while i < |history|
      invariant i <= |history|
      invariant Pieces(json, history[..i]) == Ok(Flatten(messages)) && Alternating(messages)
      invariant texts == SystemTexts(history[..i])
    {
      var m := history[i];
      PiecesNext(json, history, i);
      assert Flatten(messages) + [] == Flatten(messages);
      if m.role.System? {
        if !m.content.Text? {
          return system, Err(SystemNotText);
        }
        texts := texts + [m.content.text];
      } else {
        var blocks := BlocksOf(json, m);
        if blocks.Err? {
          return system, Err(blocks.error);
        }
        messages := Push(messages, SideOf(m.role), blocks.value);
      }
      i := i + 1;
    }
    assert history[..i] == history;
    system := JoinBlank(texts);
    turns := Ok(messages);
  }

  // -------------------------------------------------------------- trimming

  const KEEP := 14

  /** `start` is where the kept tail begins: as late as `keep` allows, but not on a tool reply. */
  ghost predicate CutAt(h: seq<Message>, keep: nat, start: nat) {
    && 2 <= start <= |h| - keep
    && (start == 2 || start == |h| || !h[start].role.Tool?)
    && (forall j :: start < j <= |h| - keep && j < |h| ==> h[j].role.Tool?)
  }

  /** A short history stays whole; of a longer one the first two messages and the tail from `start` are kept. */
  ghost predicate Trims(h: seq<Message>, keep: nat, start: nat, kept: seq<Message>) {
    if |h| <= keep + 2 then kept == h else CutAt(h, keep, start) && kept == h[..2] + h[start..]
  }

  method Trim(h: seq<Message>, keep: nat) returns (kept: seq<Message>, ghost start: nat)
    ensures Trims(h, keep, start, kept)
  {
    start := 2;
    if |h| <= keep + 2 {
      return h, 2;
    }
    var cut := |h| - keep;
    while cut > 2 && cut < |h| && h[cut].role.Tool?
      invariant 2 <= cut <= |h| - keep
      invariant forall j :: cut < j <= |h| - keep && j < |h| ==> h[j].role.Tool?
    {
      cut := cut - 1;
    }
    kept, start := h[..2] + h[cut..], cut;
  }

  // ------------------------------------------------- histories of the agent

  /** A tool call and the reply right behind it. */
  predicate Answers(call: Message, reply: Message) {
    && call.role.Assistant? && call.calls.Some? && |call.calls.value| == 1
    && reply.role.Tool? && reply.callId == Some(call.calls.value[0].id)
  }

  predicate Calls(m: Message) {
    m.role.Assistant? && m.calls.Some?
  }

  /** What the agent's loop keeps: a system prompt, a goal, and every call with its reply right behind it. */
  ghost predicate WellPaired(h: seq<Message>) {
    && |h| >= 2 && h[0].role.System? && h[0].content.Text?
    && h[1].role.User? && Spoken(h[1])
    && (forall i: nat | 1 <= i < |h| :: PairedAt(h, i))
  }

  predicate PairedAt(h: seq<Message>, i: nat)
    requires 1 <= i < |h|
  {
    && !h[i].role.System?
    && (h[i].role.Tool? ==> Answers(h[i - 1], h[i]))
    && (Calls(h[i]) ==> i + 1 < |h| && Answers(h[i], h[i + 1]))
  }

  /** A user message that says something. */
  predicate Spoken(m: Message) {
    match m.content
    case Text(text) => text != ""
    case Parts(parts) => parts != []
    case Other => true
  }

  /** Trimming never separates a pair, and keeps at most three messages more than asked. */
  lemma TrimmedStaysPaired(h: seq<Message>, keep: nat, start: nat, kept: seq<Message>)
    requires WellPaired(h) && keep > 0 && Trims(h, keep, start, kept)
    ensures WellPaired(kept) && |kept| <= keep + 3
  {
    if |h| > keep + 2 {
      assert PairedAt(h, start);
      assert !h[start].role.Tool?;
      if start < |h| - keep {
        var d := |h| - keep;
        assert PairedAt(h, d);
        assert h[d].role.Tool? && Answers(h[d - 1], h[d]);
        assert start == d - 1;
      }
      forall i: nat | 1 <= i < |kept|
        ensures PairedAt(kept, i)
      {
        if i >= 2 {
          assert PairedAt(h, start + i - 2);
          assert kept[i] == h[start + i - 2];
        } else {
          assert PairedAt(h, 1);
        }
      }
    }
  }

  // --------------------------------------------------- pairing in the turns

  predicate Matches(use: Piece, result: Piece) {
    use.side.AssistantSide? && use.block.ToolUse? && result.side.UserSide? && result.block.ToolResult?
    && use.block.id == result.block.id
  }

  /** Every tool use is followed at once by its result, and every result follows its use. */
  ghost predicate PairedPieces(pieces: seq<Piece>) {
    && (forall i :: 0 <= i < |pieces| && pieces[i].block.ToolUse? ==> i + 1 < |pieces| && Matches(pieces[i], pieces[i + 1]))
    && (forall i :: 0 <= i < |pieces| && pieces[i].block.ToolResult? ==> i > 0 && Matches(pieces[i - 1], pieces[i]))
  }

  lemma {:induction false} PartsArePlain(parts: seq<Part>)
    requires PartBlocks(parts).Ok?
    ensures |PartBlocks(parts).value| == |parts|
    ensures forall j :: 0 <= j < |PartBlocks(parts).value| ==>
              !PartBlocks(parts).value[j].ToolUse? && !PartBlocks(parts).value[j].ToolResult?
  {
    if parts != [] {
      PartsArePlain(parts[1..]);
    }
  }

  lemma {:induction false} UsesAreUses(json: Json, calls: seq<Call>)
    requires UseBlocks(json, calls).Ok?
    ensures |UseBlocks(json, calls).value| == |calls|
    ensures forall j :: 0 <= j < |calls| ==> UseBlocks(json, calls).value[j].ToolUse? && UseBlocks(json, calls).value[j].id == calls[j].id
  {
    if calls != [] {
      UsesAreUses(json, calls[1..]);
    }
  }

  /** What one message of a well-paired history turns into. */
  lemma MessageShape(json: Json, m: Message)
    requires MessagePieces(json, m).Ok?
    ensures var p := MessagePieces(json, m).value;
            && (forall j :: 0 <= j < |p| ==> p[j].side == SideOf(m.role))
            && (m.role.Tool? ==> |p| == 1 && p[0].block.ToolResult? && m.callId == Some(p[0].block.id))
            && (!m.role.Tool? ==> forall j :: 0 <= j < |p| ==> !p[j].block.ToolResult?)
            && (!Calls(m) ==> forall j :: 0 <= j < |p| ==> !p[j].block.ToolUse?)
            && (Calls(m) && |m.calls.value| == 1 ==>
                  && p != [] && p[|p| - 1].block.ToolUse? && p[|p| - 1].block.id == m.calls.value[0].id
                  && forall j :: 0 <= j < |p| - 1 ==> !p[j].block.ToolUse?)
            && (m.role.User? && Spoken(m) ==> p != [])
  {
    if !m.role.System? && !m.role.Tool? && m.content.Parts? {
      PartsArePlain(m.content.parts);
    }
    if Calls(m) {
      UsesAreUses(json, m.calls.value);
    }
  }

  /** After i messages the pieces are paired, except that a last call may still await its reply. */
  ghost predicate PairedSoFar(h: seq<Message>, i: nat, p: seq<Piece>) {
    && 1 <= i <= |h|
    && (forall j :: 0 <= j < |p| && p[j].block.ToolUse? && !(j == |p| - 1 && Calls(h[i - 1])) ==> j + 1 < |p| && Matches(p[j], p[j + 1]))
    && (forall j :: 0 <= j < |p| && p[j].block.ToolResult? ==> j > 0 && Matches(p[j - 1], p[j]))
    && (Calls(h[i - 1]) ==>
          && p != [] && |h[i - 1].calls.value| == 1
          && p[|p| - 1] == Piece(AssistantSide, p[|p| - 1].block) && p[|p| - 1].block.ToolUse?
          && p[|p| - 1].block.id == h[i - 1].calls.value[0].id)
  }

  lemma {:induction false} PiecesPaired(json: Json, h: seq<Message>, i: nat)
    requires WellPaired(h) && 1 <= i <= |h| && Pieces(json, h[..i]).Ok?
    ensures PairedSoFar(h, i, Pieces(json, h[..i]).value)
    ensures i >= 2 ==> Pieces(json, h[..i]).value != [] && Pieces(json, h[..i]).value[0].side.UserSide?
  {
    assert h[..i][..i - 1] == h[..i - 1];
    if i == 1 {
      assert h[..0] == [];
    } else {
      PiecesPaired(json, h, i - 1);
      var before := Pieces(json, h[..i - 1]).value;
      var last := MessagePieces(json, h[i - 1]).value;
      MessageShape(json, h[i - 1]);
      PairedGrows(json, h, i, before, last);
      if i == 2 {
        FirstPieces(json, h);
      }
    }
  }

  lemma FirstPieces(json: Json, h: seq<Message>)
    requires WellPaired(h) && Pieces(json, h[..1]).Ok?
    ensures Pieces(json, h[..1]).value == []
  {
    assert h[..1][..0] == [];
    assert h[..1][0] == h[0];
  }

  lemma PairedGrows(json: Json, h: seq<Message>, i: nat, before: seq<Piece>, last: seq<Piece>)
    requires WellPaired(h) && 2 <= i <= |h| && PairedSoFar(h, i - 1, before)
    requires MessagePieces(json, h[i - 1]) == Ok(last)
    ensures PairedSoFar(h, i, before + last)
  {
    var m, p := h[i - 1], before + last;
    MessageShape(json, m);
    assert PairedAt(h, i - 1) && PairedAt(h, if i >= 3 then i - 2 else 1);
    assert m.role.Tool? ==> Answers(h[i - 2], m);
    assert Calls(h[i - 2]) ==> i >= 3 && Answers(h[i - 2], m);
    assert Calls(m) ==> i < |h| && Answers(m, h[i]);
    forall j | 0 <= j < |p| && p[j].block.ToolUse? && !(j == |p| - 1 && Calls(m))
      ensures j + 1 < |p| && Matches(p[j], p[j + 1])
    {
      if j == |before| - 1 {
        assert p[j] == before[j];
        assert Calls(h[i - 2]) ==> last == [last[0]] && p[j + 1] == last[0];
      }
    }
    forall j | 0 <= j < |p| && p[j].block.ToolResult?
      ensures j > 0 && Matches(p[j - 1], p[j])
    {
      if j >= |before| {
        assert p[j] == last[j - |before|];
        assert p[j - 1] == before[j - 1];
      }
    }
  }

  /** A tool use is the last block of its turn, and the next turn opens with its result. */
  lemma UseEndsTurn(turns: seq<Turn>, k: nat, j: nat)
    requires Alternating(turns) && PairedPieces(Flatten(turns))
    requires k < |turns| && j < |turns[k].blocks| && turns[k].blocks[j].ToolUse?
    ensures turns[k].side.AssistantSide? && j == |turns[k].blocks| - 1 && k + 1 < |turns|
    ensures turns[k + 1].side.UserSide? && turns[k + 1].blocks[0].ToolResult?
    ensures turns[k + 1].blocks[0].id == turns[k].blocks[j].id
  {
    PieceAt(turns, k, j);
    FlattenSize(turns);
    if j + 1 < |turns[k].blocks| {
      PieceAt(turns, k, j + 1);
    } else if k + 1 < |turns| {
      PieceAt(turns, k + 1, 0);
    }
  }

  /** A result opens its turn, and the turn before ends with the matching tool use: none is orphaned. */
  lemma ResultOpensTurn(turns: seq<Turn>, k: nat, j: nat)
    requires Alternating(turns) && PairedPieces(Flatten(turns))
    requires k < |turns| && j < |turns[k].blocks| && turns[k].blocks[j].ToolResult?
    ensures turns[k].side.UserSide? && j == 0 && k > 0
    ensures var last := turns[k - 1].blocks[|turns[k - 1].blocks| - 1];
            turns[k - 1].side.AssistantSide? && last.ToolUse? && last.id == turns[k].blocks[j].id
  {
    PieceAt(turns, k, j);
    if j > 0 {
      PieceAt(turns, k, j - 1);
    } else if k > 0 {
      PieceAt(turns, k - 1, |turns[k - 1].blocks| - 1);
    }
  }

  /** What the model API demands of the turns. */
  ghost predicate Acceptable(turns: seq<Turn>) {
    && Alternating(turns) && turns != [] && turns[0].side.UserSide?
    && (forall k, j :: 0 <= k < |turns| && 0 <= j < |turns[k].blocks| && turns[k].blocks[j].ToolUse? ==>
          && j == |turns[k].blocks| - 1 && k + 1 < |turns|
          && turns[k + 1].blocks[0].ToolResult? && turns[k + 1].blocks[0].id == turns[k].blocks[j].id)
    && (forall k, j :: 0 <= k < |turns| && 0 <= j < |turns[k].blocks| && turns[k].blocks[j].ToolResult? ==>
          && j == 0 && k > 0
          && var last := turns[k - 1].blocks[|turns[k - 1].blocks| - 1];
             last.ToolUse? && last.id == turns[k].blocks[0].id)
  }

  /** A well-paired history that converts becomes turns the model API accepts. */
  lemma WellPairedIsAcceptable(json: Json, h: seq<Message>, turns: seq<Turn>)
    requires WellPaired(h) && Pieces(json, h) == Ok(Flatten(turns)) && Alternating(turns)
    ensures Acceptable(turns)
  {
    assert h[..|h|] == h;
    PiecesPaired(json, h, |h|);
    assert PairedAt(h, |h| - 1);
    assert !Calls(h[|h| - 1]);
    assert PairedPieces(Flatten(turns));
    FlattenEmpty(turns);
    PieceAt(turns, 0, 0);
    forall k, j | 0 <= k < |turns| && 0 <= j < |turns[k].blocks| && turns[k].blocks[j].ToolUse?
      ensures j == |turns[k].blocks| - 1 && k + 1 < |turns|
      ensures turns[k + 1].blocks[0].ToolResult? && turns[k + 1].blocks[0].id == turns[k].blocks[j].id
    {
      UseEndsTurn(turns, k, j);
    }
    forall k, j | 0 <= k < |turns| && 0 <= j < |turns[k].blocks| && turns[k].blocks[j].ToolResult?
      ensures j == 0 && k > 0
      ensures var last := turns[k - 1].blocks[|turns[k - 1].blocks| - 1];
              last.ToolUse? && last.id == turns[k].blocks[0].id
    {
      ResultOpensTurn(turns, k, j);
    }
  }

  // --------------------------------------------------- when it converts

  predicate FineContent(content: Content) {
    match content
    case Text(_) => true
    case Parts(parts) => forall i :: 0 <= i < |parts| ==> PartBlock(parts[i]).Some?
    case Other => false
  }

  /** The message can be passed on: readable content, a named reply, parsable arguments. */
  predicate Convertible(json: Json, m: Message) {
    match m.role
    case System => m.content.Text?
    case User => FineContent(m.content)
    case Assistant =>
      FineContent(m.content)
      && (m.calls.Some? ==> forall i :: 0 <= i < |m.calls.value| ==> json.parse(m.calls.value[i].arguments).Some?)
    case Tool => m.callId.Some? && m.callId.value != ""
  }

  lemma {:induction false} PartsConvert(parts: seq<Part>)
    ensures PartBlocks(parts).Ok? <==> forall i :: 0 <= i < |parts| ==> PartBlock(parts[i]).Some?
  {
    if parts != [] {
      PartsConvert(parts[1..]);
      assert forall i :: 0 <= i < |parts| - 1 ==> parts[1..][i] == parts[i + 1];
    }
  }

  lemma {:induction false} UsesConvert(json: Json, calls: seq<Call>)
    ensures UseBlocks(json, calls).Ok? <==> forall i :: 0 <= i < |calls| ==> json.parse(calls[i].arguments).Some?
  {
    if calls != [] {
      UsesConvert(json, calls[1..]);
      assert forall i :: 0 <= i < |calls| - 1 ==> calls[1..][i] == calls[i + 1];
    }
  }

  lemma MessageConverts(json: Json, m: Message)
    ensures MessagePieces(json, m).Ok? <==> Convertible(json, m)
  {
    if m.content.Parts? {
      PartsConvert(m.content.parts);
    }
    if m.calls.Some? {
      UsesConvert(json, m.calls.value);
    }
  }

  /** A history converts exactly when each of its messages does. */
  lemma {:induction false} ConvertsExactly(json: Json, h: seq<Message>)
    ensures Pieces(json, h).Ok? <==> forall i :: 0 <= i < |h| ==> Convertible(json, h[i])
  {
    if h != [] {
      ConvertsExactly(json, h[..|h| - 1]);
      MessageConverts(json, h[|h| - 1]);
    }
  }

  /** `kept` is what goes to the model: it converts as a whole, or its first fault is reported. */
  ghost predicate Sends(json: Json, kept: seq<Message>, system: string, turns: Result<seq<Turn>, Fault>) {
    && WellPaired(kept) && |kept| <= KEEP + 3
    && (turns.Ok? <==> forall i :: 0 <= i < |kept| ==> Convertible(json, kept[i]))
    && match Pieces(json, kept)
       case Err(fault) => turns == Err(fault)
       case Ok(pieces) =>
         turns.Ok? && Acceptable(turns.value) && Flatten(turns.value) == pieces && system == JoinBlank(SystemTexts(kept))
  }

  ghost predicate Presents(json: Json, h: seq<Message>, system: string, turns: Result<seq<Turn>, Fault>) {
    exists start: nat, kept :: Trims(h, KEEP, start, kept) && Sends(json, kept, system, turns)
  }

  ghost predicate Converts(json: Json, h: seq<Message>) {
    forall i :: 0 <= i < |h| ==> Convertible(json, h[i])
  }

  lemma ConvertsMore(json: Json, h: seq<Message>, added: seq<Message>)
    requires Converts(json, h) && Converts(json, added)
    ensures Converts(json, h + added)
  {
  }

  lemma TrimConverts(json: Json, h: seq<Message>, start: nat, kept: seq<Message>)
    requires Trims(h, KEEP, start, kept) && Converts(json, h) && |h| >= 2
    ensures Converts(json, kept)
  {
    if |h| > KEEP + 2 {
      forall i | 0 <= i < |kept|
        ensures Convertible(json, kept[i])
      {
        assert kept[i] == h[if i < 2 then i else start + i - 2];
      }
    }
  }

  /** Of a history that converts, what trimming keeps converts too: the call goes out. */
  lemma PreparedConverts(json: Json, h: seq<Message>, system: string, turns: Result<seq<Turn>, Fault>)
    requires Presents(json, h, system, turns) && Converts(json, h) && |h| >= 2
    ensures turns.Ok?
  {
    var start: nat, kept :| Trims(h, KEEP, start, kept) && Sends(json, kept, system, turns);
    TrimConverts(json, h, start, kept);
  }

  /**
   * What one model call of the agent does to its history: trimming and conversion together give
   * turns the API accepts, exactly when every kept message converts.
   */
  method Prepare(json: Json, h: seq<Message>) returns (system: string, turns: Result<seq<Turn>, Fault>)
    requires WellPaired(h)
    ensures Presents(json, h, system, turns)
  {
    var kept, start := Trim(h, KEEP);
    TrimmedStaysPaired(h, KEEP, start, kept);
    system, turns := AnthropicHistory(json, kept);
    ConvertsExactly(json, kept);
    if turns.Ok? {
      WellPairedIsAcceptable(json, kept, turns.value);
    }
    assert Trims(h, KEEP, start, kept) && Sends(json, kept, system, turns);
  }
}
