/** Scrubbing a whole request, and restoring a response.

    `_scrub_tool_use_messages` walks the content blocks of every message, scrubs the
    text it finds and collects all placeholders in ONE mapping.  Restoring with that
    merged mapping must give every message back exactly, nested blocks included. */
module Messages {
  import opened Strings
  import opened Restore
  import opened Pii

  /** Any JSON-like value whose strings are `T`. */
  datatype Json<+T> =
    | Str(text: T)
    | Arr(items: seq<Json<T>>)
    | Obj(members: seq<(string, Json<T>)>)
    | Scalar(n: int)

  datatype Block =
    | Text(text: string)
    | ToolUse(id: string, input: Json<string>)
    | ToolResult(id: string, content: Inner)
    | OtherBlock(n: int)

  datatype Inner = Plain(text: string) | Nested(blocks: seq<Block>) | OtherInner(n: int)

  datatype Content = Whole(text: string) | Blocks(blocks: seq<Block>) | OtherContent(n: int)

  datatype Message = Message(role: string, content: Content)

  // ----- what it means for a scrubbed message to hide its original

  ghost predicate HidesBlock(scrubbed: Block, block: Block, mapping: map<string, string>)
    decreases scrubbed
  {
    match (scrubbed, block)
    case (Text(s), Text(t)) => Hides(s, t, mapping)
    case (ToolResult(i, Plain(s)), ToolResult(j, Plain(t))) => i == j && Hides(s, t, mapping)
    case (ToolResult(i, Nested(ss)), ToolResult(j, Nested(ts))) =>
      i == j && |ss| == |ts| && forall k | 0 <= k < |ss| :: HidesBlock(ss[k], ts[k], mapping)
    case _ => scrubbed == block
  }

  ghost predicate HidesMessage(scrubbed: Message, message: Message, mapping: map<string, string>) {
    scrubbed.role == message.role &&
    match (scrubbed.content, message.content)
    case (Whole(s), Whole(t)) => Hides(s, t, mapping)
    case (Blocks(ss), Blocks(ts)) =>
      |ss| == |ts| && forall k | 0 <= k < |ss| :: HidesBlock(ss[k], ts[k], mapping)
    case _ => scrubbed.content == message.content
  }

  ghost predicate Extends(bigger: map<string, string>, mapping: map<string, string>) {
    forall p | p in mapping :: p in bigger && bigger[p] == mapping[p]
  }

  lemma {:induction false} SubstituteExtended(tokens: seq<Token>, mapping: map<string, string>,
                                              bigger: map<string, string>)
    requires Known(tokens, mapping) && Extends(bigger, mapping)
    ensures Known(tokens, bigger) && Substitute(tokens, bigger) == Substitute(tokens, mapping)
  {
    if tokens != [] {
      SubstituteExtended(tokens[1..], mapping, bigger);
      assert tokens[0] in tokens;
    }
  }

  lemma HidesExtended(scrubbed: string, text: string, mapping: map<string, string>, bigger: map<string, string>)
    requires Hides(scrubbed, text, mapping) && Extends(bigger, mapping)
    ensures Hides(scrubbed, text, bigger)
  {
    var tokens :| Render(tokens) == scrubbed && Known(tokens, mapping) && Substitute(tokens, mapping) == text;
    SubstituteExtended(tokens, mapping, bigger);
  }

  lemma {:induction false} HidesBlockExtended(scrubbed: Block, block: Block,
                                              mapping: map<string, string>, bigger: map<string, string>)
    requires HidesBlock(scrubbed, block, mapping) && Extends(bigger, mapping)
    ensures HidesBlock(scrubbed, block, bigger)
    decreases scrubbed
  {
    match (scrubbed, block) {
      case (Text(s), Text(t)) => HidesExtended(s, t, mapping, bigger);
      case (ToolResult(_, Plain(s)), ToolResult(_, Plain(t))) => HidesExtended(s, t, mapping, bigger);
      case (ToolResult(_, Nested(ss)), ToolResult(_, Nested(ts))) =>
        forall k | 0 <= k < |ss| ensures HidesBlock(ss[k], ts[k], bigger) {
          HidesBlockExtended(ss[k], ts[k], mapping, bigger);
        }
      case _ =>
    }
  }

  lemma HidesBlocksExtended(scrubbed: seq<Block>, blocks: seq<Block>, mapping: map<string, string>,
                            bigger: map<string, string>)
    requires |scrubbed| <= |blocks| && Extends(bigger, mapping)
    requires forall k | 0 <= k < |scrubbed| :: HidesBlock(scrubbed[k], blocks[k], mapping)
    ensures forall k | 0 <= k < |scrubbed| :: HidesBlock(scrubbed[k], blocks[k], bigger)
  {
    forall k | 0 <= k < |scrubbed| ensures HidesBlock(scrubbed[k], blocks[k], bigger) {
      HidesBlockExtended(scrubbed[k], blocks[k], mapping, bigger);
    }
  }

  lemma HidesMessageExtended(scrubbed: Message, message: Message,
                             mapping: map<string, string>, bigger: map<string, string>)
    requires HidesMessage(scrubbed, message, mapping) && Extends(bigger, mapping)
    ensures HidesMessage(scrubbed, message, bigger)
  {
    match (scrubbed.content, message.content) {
      case (Whole(s), Whole(t)) => HidesExtended(s, t, mapping, bigger);
      case (Blocks(ss), Blocks(ts)) =>
        forall k | 0 <= k < |ss| ensures HidesBlock(ss[k], ts[k], bigger) {
          HidesBlockExtended(ss[k], ts[k], mapping, bigger);
        }
      case _ =>
    }
  }

  // ----- scrubbing

  /** What the recogniser delivers: nonempty spans of the text, with bracket-free entity names. */
  ghost predicate GoodRecogniser(recognise: string -> seq<Span>) {
    forall text, r | r in recognise(text) :: InText(r, text) && NoBrackets(r.entity)
  }

  /** `p` is a placeholder made with one of the first `drawn` random tails. */
  ghost predicate DrawnName(p: string, uuids: Uuids, drawn: nat) {
    exists entity, i: nat :: i < drawn && NoBrackets(entity) && p == PlaceholderFor(entity, uuids(i))
  }

  /** The scrubbed form of a text, its placeholders drawn from `drawn` on: every accepted hit
      of the recogniser is replaced, and nothing else. */
  ghost predicate IsScrubAt(recognise: string -> seq<Span>, uuids: Uuids, drawn: nat, scrubbed: string, text: string) {
    var spans := RightToLeft(recognise(text));
    Descending(text, spans) && scrubbed == Render(ScrubTokens(text, spans, uuids, drawn))
  }

  ghost predicate IsScrub(recognise: string -> seq<Span>, uuids: Uuids, scrubbed: string, text: string) {
    exists drawn: nat :: IsScrubAt(recognise, uuids, drawn, scrubbed, text)
  }

  /** Every text of the block is scrubbed, at any depth; tool uses and other blocks pass. */
  ghost predicate ScrubsBlock(recognise: string -> seq<Span>, uuids: Uuids, scrubbed: Block, block: Block)
    decreases scrubbed
  {
    match (scrubbed, block)
    case (Text(s), Text(t)) => IsScrub(recognise, uuids, s, t)
    case (ToolResult(i, Plain(s)), ToolResult(j, Plain(t))) => i == j && IsScrub(recognise, uuids, s, t)
    case (ToolResult(i, Nested(ss)), ToolResult(j, Nested(ts))) =>
      i == j && |ss| == |ts| && forall k | 0 <= k < |ss| :: ScrubsBlock(recognise, uuids, ss[k], ts[k])
    case _ => scrubbed == block
  }

  ghost predicate ScrubsMessage(recognise: string -> seq<Span>, uuids: Uuids, scrubbed: Message, message: Message) {
    scrubbed.role == message.role &&
    match (scrubbed.content, message.content)
    case (Whole(s), Whole(t)) => IsScrub(recognise, uuids, s, t)
    case (Blocks(ss), Blocks(ts)) =>
      |ss| == |ts| && forall k | 0 <= k < |ss| :: ScrubsBlock(recognise, uuids, ss[k], ts[k])
    case _ => scrubbed.content == message.content
  }

  /** The empty text, which the code does not even hand to the recogniser, scrubs to itself. */
  lemma EmptyIsScrubbed(recognise: string -> seq<Span>, uuids: Uuids)
    requires GoodRecogniser(recognise)
    ensures IsScrub(recognise, uuids, "", "")
  {
    var spans := RightToLeft(recognise(""));
    AcceptedDescend("", recognise(""));
    assert forall i | 0 <= i < |spans| :: InText(spans[i], "");
    assert ScrubTokens("", spans, uuids, 0) == [];
    assert IsScrubAt(recognise, uuids, 0, "", "");
  }

  /** The names recorded by one text come from that text's own draws. */
  lemma OwnNames(text: string, spans: seq<Span>, uuids: Uuids, drawn: nat, p: string)
    requires Descending(text, spans) && p in Mapping(text, spans, uuids, drawn, |spans|)
    requires forall i | 0 <= i < |spans| :: NoBrackets(spans[i].entity)
    ensures exists entity, i: nat ::
              drawn <= i < drawn + |spans| && NoBrackets(entity) && p == PlaceholderFor(entity, uuids(i))
  {
    MappingKeys(text, spans, uuids, drawn, |spans|);
    var k :| 0 <= k < |spans| && p == Name(spans, uuids, drawn, k);
    assert drawn <= drawn + k < drawn + |spans|;
  }

  lemma SpansAreGood(recognise: string -> seq<Span>, text: string)
    requires GoodRecogniser(recognise)
    ensures forall r | r in recognise(text) :: InText(r, text)
    ensures var spans := RightToLeft(recognise(text));
            Descending(text, spans) && |spans| == |Accepted(recognise(text))| &&
            forall i | 0 <= i < |spans| :: NoBrackets(spans[i].entity)
  {
    var spans := RightToLeft(recognise(text));
    AcceptedDescend(text, recognise(text));
    forall i | 0 <= i < |spans| ensures NoBrackets(spans[i].entity) {
      assert spans[i] in multiset(spans);
      assert spans[i] in multiset(recognise(text));
    }
  }

  /** Adding one text's names keeps every name a drawn one. */
  lemma NamesAreDrawn(text: string, spans: seq<Span>, uuids: Uuids, drawn: nat, mapping: map<string, string>)
    requires Descending(text, spans) && forall i | 0 <= i < |spans| :: NoBrackets(spans[i].entity)
    requires forall p | p in mapping :: DrawnName(p, uuids, drawn)
    ensures forall p | p in mapping + Mapping(text, spans, uuids, drawn, |spans|) ::
              DrawnName(p, uuids, drawn + |spans|)
  {
    var own := Mapping(text, spans, uuids, drawn, |spans|);
    hide Mapping, Descending;
    forall p | p in mapping + own ensures DrawnName(p, uuids, drawn + |spans|) {
      if p in own { OwnNames(text, spans, uuids, drawn, p); }
    }
  }

  lemma NamesApart(text: string, spans: seq<Span>, uuids: Uuids, first: nat, p: string)
    requires Descending(text, spans) && p in Mapping(text, spans, uuids, first, |spans|)
    requires forall i | 0 <= i < |spans| :: NoBrackets(spans[i].entity)
    requires GoodDraws(uuids, 0, first + |spans|)
    ensures !DrawnName(p, uuids, first)
  {
    if DrawnName(p, uuids, first) {
      var e1, i: nat :| i < first && NoBrackets(e1) && p == PlaceholderFor(e1, uuids(i));
      OwnNames(text, spans, uuids, first, p);
      var e2, j: nat :| first <= j < first + |spans| && NoBrackets(e2) && p == PlaceholderFor(e2, uuids(j));
      PlaceholdersDiffer(e1, uuids(i), e2, uuids(j));
    }
  }

  /** With good draws one text's names are new, and the merged mapping explains the text. */
  lemma TextIsHidden(recognise: string -> seq<Span>, uuids: Uuids, text: string, first: nat,
                     before: map<string, string>)
    requires GoodRecogniser(recognise) && forall p | p in before :: DrawnName(p, uuids, first)
    requires GoodDraws(uuids, 0, first + |RightToLeft(recognise(text))|)
    requires Descending(text, RightToLeft(recognise(text)))
    ensures var spans := RightToLeft(recognise(text));
            var merged := before + Mapping(text, spans, uuids, first, |spans|);
            Extends(merged, before) && Hides(Render(ScrubTokens(text, spans, uuids, first)), text, merged)
  {
    hide RightToLeft, Mapping, ScrubTokens, Render, Hides, DrawnName;
    var spans := RightToLeft(recognise(text));
    var own := Mapping(text, spans, uuids, first, |spans|);
    SpansAreGood(recognise, text);
    forall p | p in own ensures p !in before {
      NamesApart(text, spans, uuids, first, p);
    }
    assert GoodDraws(uuids, first, first + |spans|);
    ScrubHides(text, recognise(text), uuids, first, before + own);
  }

  /** The request's scrubbing state: the merged mapping and the random draws so far. */
  class MessageScrubber {
    const recognise: string -> seq<Span>
    const uuids: Uuids
    var drawn: nat
    var mapping: map<string, string>

    ghost predicate Valid()
      reads this
    {
      GoodRecogniser(recognise) && forall p | p in mapping :: DrawnName(p, uuids, drawn)
    }

    /** All draws so far are distinct, bracket-free and of the fixed length. */
    ghost predicate GoodSoFar()
      reads this
    {
      GoodDraws(uuids, 0, drawn)
    }

    constructor (recognise: string -> seq<Span>, uuids: Uuids)
      requires GoodRecogniser(recognise)
      ensures Valid() && mapping == map[] && drawn == 0
      ensures this.recognise == recognise && this.uuids == uuids
    {
      this.recognise := recognise;
      this.uuids := uuids;
      drawn := 0;
      mapping := map[];
    }

    method ScrubText(text: string) returns (scrubbed: string)
      requires Valid()
      modifies this
      ensures Valid() && IsScrubAt(recognise, uuids, old(drawn), scrubbed, text)
      ensures var spans := RightToLeft(recognise(text));
              drawn == old(drawn) + |spans| &&
              mapping == old(mapping) + Mapping(text, spans, uuids, old(drawn), |spans|)
      ensures GoodSoFar() ==> Extends(mapping, old(mapping)) && Hides(scrubbed, text, mapping)
    {
      hide RightToLeft, Mapping, ScrubTokens, Render, GoodRecogniser, Descending, GoodDraws, Hides, DrawnName;
      ghost var spans := RightToLeft(recognise(text));
      ghost var before, first := mapping, drawn;
      SpansAreGood(recognise, text);
      assert forall r | r in recognise(text) :: InText(r, text);
      var own, drawn';
      scrubbed, own, drawn' := Scrub(text, recognise(text), uuids, drawn);
      mapping := mapping + own;
      drawn := drawn';
      NamesAreDrawn(text, spans, uuids, first, before);
      if GoodSoFar() {
        TextIsHidden(recognise, uuids, text, first, before);
      }
    }

    method ScrubBlocks(blocks: seq<Block>) returns (scrubbed: seq<Block>)
      requires Valid()
      modifies this
      ensures Valid() && drawn >= old(drawn) && |scrubbed| == |blocks|
      ensures forall k | 0 <= k < |blocks| :: ScrubsBlock(recognise, uuids, scrubbed[k], blocks[k])
      ensures GoodSoFar() ==> Extends(mapping, old(mapping))
      ensures GoodSoFar() ==> forall k | 0 <= k < |blocks| :: HidesBlock(scrubbed[k], blocks[k], mapping)
      decreases blocks
    {
      hide ScrubsBlock, HidesBlock;
      scrubbed := [];
      for i := 0 to |blocks|
        invariant Valid() && drawn >= old(drawn) && |scrubbed| == i
        invariant forall k | 0 <= k < i :: ScrubsBlock(recognise, uuids, scrubbed[k], blocks[k])
        invariant GoodSoFar() ==> Extends(mapping, old(mapping))
        invariant GoodSoFar() ==> forall k | 0 <= k < i :: HidesBlock(scrubbed[k], blocks[k], mapping)
      {
        ghost var before := mapping;
        var block := ScrubBlock(blocks[i]);
        if GoodSoFar() {
          HidesBlocksExtended(scrubbed, blocks, before, mapping);
        }
        scrubbed := scrubbed + [block];
      }
    }

    method ScrubBlock(block: Block) returns (scrubbed: Block)
      requires Valid()
      modifies this
      ensures Valid() && drawn >= old(drawn) && ScrubsBlock(recognise, uuids, scrubbed, block)
      ensures GoodSoFar() ==> Extends(mapping, old(mapping)) && HidesBlock(scrubbed, block, mapping)
      decreases block
    {
      assert Render([]) == "" == Substitute([], mapping);
      EmptyIsScrubbed(recognise, uuids);
      match block {
        case Text(text) =>
          if text != "" {
            var s := ScrubText(text);
            return Text(s);
          }
          return block;
        case ToolResult(id, Plain(text)) =>
          if text != "" {
            var s := ScrubText(text);
            return ToolResult(id, Plain(s));
          }
          return block;
        case ToolResult(id, Nested(blocks)) =>
          var inner := ScrubBlocks(blocks);
          return ToolResult(id, Nested(inner));
        case _ =>
          return block;
      }
    }

    /** Every message, restored with the merged mapping, is the original one. */
    method ScrubToolUseMessages(messages: seq<Message>) returns (scrubbed: seq<Message>)
      requires Valid()
      modifies this
      ensures Valid() && |scrubbed| == |messages|
      ensures forall k | 0 <= k < |messages| :: ScrubsMessage(recognise, uuids, scrubbed[k], messages[k])
      ensures GoodSoFar() ==> forall k | 0 <= k < |messages| :: HidesMessage(scrubbed[k], messages[k], mapping)
      ensures GoodSoFar() ==> forall order, k | Enumerates(order, mapping) && 0 <= k < |messages|
                  && FreshMessage(messages[k], mapping) ::
                  RestoreMessage(scrubbed[k], order, mapping) == messages[k]
    {
      hide ScrubsBlock, HidesBlock, RestoreMessage, FreshMessage, IsScrubAt, Hides;
      scrubbed := [];
      for i := 0 to |messages|
        invariant Valid() && |scrubbed| == i
        invariant forall k | 0 <= k < i :: ScrubsMessage(recognise, uuids, scrubbed[k], messages[k])
        invariant GoodSoFar() ==> forall k | 0 <= k < i :: HidesMessage(scrubbed[k], messages[k], mapping)
      {
        ghost var before := mapping;
        var content;
        match messages[i].content {
          case Whole(text) => var s := ScrubText(text); content := Whole(s);
          case Blocks(blocks) => var bs := ScrubBlocks(blocks); content := Blocks(bs);
          case OtherContent(_) => content := messages[i].content;
        }
        if GoodSoFar() {
          forall k | 0 <= k < i ensures HidesMessage(scrubbed[k], messages[k], mapping) {
            HidesMessageExtended(scrubbed[k], messages[k], before, mapping);
          }
        }
        scrubbed := scrubbed + [Message(messages[i].role, content)];
      }
      if GoodSoFar() {
        forall order, k | Enumerates(order, mapping) && 0 <= k < |messages| && FreshMessage(messages[k], mapping)
          ensures RestoreMessage(scrubbed[k], order, mapping) == messages[k]
        {
          HiddenMessageRestored(scrubbed[k], messages[k], order, mapping);
        }
      }
    }
  }

  // ----- the round trip

  /** The inverse of scrubbing: the chain of replacements on every text that was scrubbed. */
  function RestoreBlock(block: Block, order: seq<string>, mapping: map<string, string>): Block
    requires forall p | p in order :: p in mapping && p != ""
    decreases block
  {
    match block
    case Text(s) => Text(ReplaceInOrder(s, order, mapping))
    case ToolResult(id, Plain(s)) => ToolResult(id, Plain(ReplaceInOrder(s, order, mapping)))
    case ToolResult(id, Nested(bs)) =>
      ToolResult(id, Nested(seq(|bs|, k requires 0 <= k < |bs| => RestoreBlock(bs[k], order, mapping))))
    case _ => block
  }

  function RestoreMessage(message: Message, order: seq<string>, mapping: map<string, string>): Message
    requires forall p | p in order :: p in mapping && p != ""
  {
    match message.content
    case Whole(s) => message.(content := Whole(ReplaceInOrder(s, order, mapping)))
    case Blocks(bs) =>
      message.(content := Blocks(seq(|bs|, k requires 0 <= k < |bs| => RestoreBlock(bs[k], order, mapping))))
    case _ => message
  }

  ghost predicate FreshBlock(block: Block, mapping: map<string, string>)
    decreases block
  {
    match block
    case Text(s) => Fresh(s, mapping)
    case ToolResult(_, Plain(s)) => Fresh(s, mapping)
    case ToolResult(_, Nested(bs)) => forall k | 0 <= k < |bs| :: FreshBlock(bs[k], mapping)
    case _ => true
  }

  /** No text of the message already contains one of the placeholders. */
  ghost predicate FreshMessage(message: Message, mapping: map<string, string>) {
    match message.content
    case Whole(s) => Fresh(s, mapping)
    case Blocks(bs) => forall k | 0 <= k < |bs| :: FreshBlock(bs[k], mapping)
    case _ => true
  }

  lemma {:induction false} HiddenBlockRestored(scrubbed: Block, block: Block,
                                               order: seq<string>, mapping: map<string, string>)
    requires HidesBlock(scrubbed, block, mapping) && FreshBlock(block, mapping)
    requires WellFormed(mapping) && Enumerates(order, mapping)
    ensures RestoreBlock(scrubbed, order, mapping) == block
    decreases block
  {
    match (scrubbed, block) {
      case (Text(s), Text(t)) => HiddenIsRestored(s, t, order, mapping);
      case (ToolResult(_, Plain(s)), ToolResult(_, Plain(t))) => HiddenIsRestored(s, t, order, mapping);
      case (ToolResult(_, Nested(ss)), ToolResult(_, Nested(ts))) =>
        forall k | 0 <= k < |ss| ensures RestoreBlock(ss[k], order, mapping) == ts[k] {
          HiddenBlockRestored(ss[k], ts[k], order, mapping);
        }
      case _ =>
    }
  }

  lemma HiddenMessageRestored(scrubbed: Message, message: Message,
                              order: seq<string>, mapping: map<string, string>)
    requires HidesMessage(scrubbed, message, mapping) && FreshMessage(message, mapping)
    requires WellFormed(mapping) && Enumerates(order, mapping)
    ensures RestoreMessage(scrubbed, order, mapping) == message
  {
    match (scrubbed.content, message.content) {
      case (Whole(s), Whole(t)) => HiddenIsRestored(s, t, order, mapping);
      case (Blocks(ss), Blocks(ts)) =>
        forall k | 0 <= k < |ss| ensures RestoreBlock(ss[k], order, mapping) == ts[k] {
          HiddenBlockRestored(ss[k], ts[k], order, mapping);
        }
      case _ =>
    }
  }

  // ----- restoring a model response

  /** `_restore_in_value`: strings are restored, at any depth; keys and scalars are not touched. */
  function RestoreInValue(value: Json<string>, order: seq<string>, mapping: map<string, string>): Json<string>
    requires forall p | p in order :: p in mapping && p != ""
    decreases value
  {
    match value
    case Str(s) => Str(ReplaceInOrder(s, order, mapping))
    case Arr(items) => Arr(seq(|items|, k requires 0 <= k < |items| => RestoreInValue(items[k], order, mapping)))
    case Obj(members) =>
      Obj(seq(|members|, k requires 0 <= k < |members| => (members[k].0, RestoreInValue(members[k].1, order, mapping))))
    case Scalar(n) => value
  }

  function RenderValue(value: Json<seq<Token>>): Json<string>
    decreases value
  {
    match value
    case Str(tokens) => Str(Render(tokens))
    case Arr(items) => Arr(seq(|items|, k requires 0 <= k < |items| => RenderValue(items[k])))
    case Obj(members) =>
      Obj(seq(|members|, k requires 0 <= k < |members| => (members[k].0, RenderValue(members[k].1))))
    case Scalar(n) => Scalar(n)
  }

  /** `plain` is `value` with every placeholder replaced at once, string by string. */
  ghost predicate Means(value: Json<seq<Token>>, plain: Json<string>, mapping: map<string, string>)
    decreases value
  {
    match (value, plain)
    case (Str(tokens), Str(s)) => Known(tokens, mapping) && s == Substitute(tokens, mapping) && Fresh(s, mapping)
    case (Arr(items), Arr(plains)) =>
      |items| == |plains| && forall k | 0 <= k < |items| :: Means(items[k], plains[k], mapping)
    case (Obj(members), Obj(plains)) =>
      |members| == |plains| &&
      forall k | 0 <= k < |members| :: members[k].0 == plains[k].0 && Means(members[k].1, plains[k].1, mapping)
    case (Scalar(n), Scalar(m)) => n == m
    case _ => false
  }

  /** A tool input the model wrote with placeholders reaches the tool with the originals. */
  lemma {:induction false} ValueRestored(value: Json<seq<Token>>, plain: Json<string>,
                                         order: seq<string>, mapping: map<string, string>)
    requires Means(value, plain, mapping) && WellFormed(mapping) && Enumerates(order, mapping)
    ensures RestoreInValue(RenderValue(value), order, mapping) == plain
    decreases value
  {
    match (value, plain) {
      case (Str(tokens), Str(_)) => RestoreIsSubstitution(tokens, order, mapping);
      case (Arr(items), Arr(plains)) =>
        forall k | 0 <= k < |items| ensures RestoreInValue(RenderValue(items[k]), order, mapping) == plains[k] {
          ValueRestored(items[k], plains[k], order, mapping);
        }
      case (Obj(members), Obj(plains)) =>
        forall k | 0 <= k < |members|
          ensures RestoreInValue(RenderValue(members[k].1), order, mapping) == plains[k].1
        {
          ValueRestored(members[k].1, plains[k].1, order, mapping);
        }
      case (Scalar(_), Scalar(_)) =>
    }
  }

  // ----- the blocks of a model response

  /** A response block as the model writes it, its placeholders told apart from other text. */
  datatype Written =
    | WrittenText(tokens: seq<Token>)
    | WrittenUse(id: string, input: Json<seq<Token>>)
    | WrittenOther(n: int)

  function Sent(w: Written): Block {
    match w
    case WrittenText(tokens) => Text(Render(tokens))
    case WrittenUse(id, input) => ToolUse(id, RenderValue(input))
    case WrittenOther(n) => OtherBlock(n)
  }

  /** What is restored in a response block: its text, or its tool input. */
  function RestoreReplyBlock(block: Block, order: seq<string>, mapping: map<string, string>): Block
    requires forall p | p in order :: p in mapping && p != ""
  {
    match block
    case Text(s) => Text(ReplaceInOrder(s, order, mapping))
    case ToolUse(id, input) => ToolUse(id, RestoreInValue(input, order, mapping))
    case _ => block
  }

  /** `plain` is the written block with every placeholder replaced at once. */
  ghost predicate BlockMeans(w: Written, plain: Block, mapping: map<string, string>) {
    match (w, plain)
    case (WrittenText(tokens), Text(s)) =>
      Known(tokens, mapping) && s == Substitute(tokens, mapping) && Fresh(s, mapping)
    case (WrittenUse(i, input), ToolUse(j, value)) => i == j && Means(input, value, mapping)
    case (WrittenOther(n), OtherBlock(m)) => n == m
    case _ => false
  }

  lemma ReplyBlockRestored(w: Written, plain: Block, order: seq<string>, mapping: map<string, string>)
    requires BlockMeans(w, plain, mapping) && WellFormed(mapping) && Enumerates(order, mapping)
    ensures RestoreReplyBlock(Sent(w), order, mapping) == plain
  {
    match w {
      case WrittenText(tokens) => RestoreIsSubstitution(tokens, order, mapping);
      case WrittenUse(id, input) => ValueRestored(input, plain.input, order, mapping);
      case WrittenOther(_) =>
    }
  }

  lemma {:induction false} NothingToRestore(value: Json<string>)
    ensures RestoreInValue(value, [], map[]) == value
    decreases value
  {
    match value {
      case Str(_) =>
      case Arr(items) =>
        forall k | 0 <= k < |items| ensures RestoreInValue(items[k], [], map[]) == items[k] {
          NothingToRestore(items[k]);
        }
      case Obj(members) =>
        forall k | 0 <= k < |members| ensures RestoreInValue(members[k].1, [], map[]) == members[k].1 {
          NothingToRestore(members[k].1);
        }
      case Scalar(_) =>
    }
  }

  /** `_restore_placeholders_in_blocks`, the mapping's entries coming in the given order: every
      block the model wrote gets back what its placeholders stand for. */
  method RestorePlaceholdersInBlocks(blocks: seq<Block>, order: seq<string>, mapping: map<string, string>)
      returns (restored: seq<Block>)
    requires WellFormed(mapping) && Enumerates(order, mapping)
    ensures |restored| == |blocks|
    ensures forall k | 0 <= k < |blocks| :: restored[k] == RestoreReplyBlock(blocks[k], order, mapping)
    ensures forall k, w, plain | 0 <= k < |blocks| && blocks[k] == Sent(w) && BlockMeans(w, plain, mapping) ::
              restored[k] == plain
  {
    if mapping == map[] {
      restored := blocks;
      assert order == [] by {
        assert forall p :: p !in order && p !in multiset(order);
        assert multiset(order) == multiset{} && |multiset(order)| == |order|;
      }
      forall k | 0 <= k < |blocks| && blocks[k].ToolUse?
        ensures RestoreReplyBlock(blocks[k], order, mapping) == blocks[k]
      {
        NothingToRestore(blocks[k].input);
      }
    } else {
      restored := [];
      for k := 0 to |blocks|
        invariant |restored| == k
        invariant forall j | 0 <= j < k :: restored[j] == RestoreReplyBlock(blocks[j], order, mapping)
      {
        restored := restored + [RestoreReplyBlock(blocks[k], order, mapping)];
      }
    }
    forall k, w, plain | 0 <= k < |blocks| && blocks[k] == Sent(w) && BlockMeans(w, plain, mapping)
      ensures restored[k] == plain
    {
      ReplyBlockRestored(w, plain, order, mapping);
    }
  }

  // ----- what the next request sends

  /** No placeholder is written anywhere in the value. */
  ghost predicate WithoutPlaceholders(value: Json<seq<Token>>)
    decreases value
  {
    match value
    case Str(tokens) => forall t | t in tokens :: t.Literal?
    case Arr(items) => forall k | 0 <= k < |items| :: WithoutPlaceholders(items[k])
    case Obj(members) => forall k | 0 <= k < |members| :: WithoutPlaceholders(members[k].1)
    case Scalar(_) => true
  }

  lemma {:induction false} RenderContains(tokens: seq<Token>, t: Token)
    requires t in tokens && t.Placeholder?
    ensures Contains(Render(tokens), t.name)
  {
    if tokens[0] == t {
      assert t.name <= Render(tokens);
    } else {
      RenderContains(tokens[1..], t);
      ContainsInSuffix(Image(tokens[0]), Render(tokens[1..]), t.name);
    }
  }

  lemma TextSameIff(tokens: seq<Token>, mapping: map<string, string>)
    requires Known(tokens, mapping) && Fresh(Substitute(tokens, mapping), mapping)
    ensures Substitute(tokens, mapping) == Render(tokens) <==> forall t | t in tokens :: t.Literal?
  {
    if t :| t in tokens && t.Placeholder? {
      RenderContains(tokens, t);
    } else {
      NoPlaceholderLeft(tokens, mapping);
    }
  }

  /** Restoring leaves a written value as it is if and only if it has no placeholder. */
  lemma {:induction false} ValueSameIff(value: Json<seq<Token>>, plain: Json<string>, mapping: map<string, string>)
    requires Means(value, plain, mapping)
    ensures plain == RenderValue(value) <==> WithoutPlaceholders(value)
    decreases value
  {
    match (value, plain) {
      case (Str(tokens), Str(_)) => TextSameIff(tokens, mapping);
      case (Arr(items), Arr(plains)) =>
        forall k | 0 <= k < |items| ensures plains[k] == RenderValue(items[k]) <==> WithoutPlaceholders(items[k]) {
          ValueSameIff(items[k], plains[k], mapping);
        }
        var rendered := RenderValue(value).items;
        assert plains == rendered <==> forall k | 0 <= k < |items| :: plains[k] == rendered[k];
      case (Obj(members), Obj(plains)) =>
        forall k | 0 <= k < |members|
          ensures plains[k].1 == RenderValue(members[k].1) <==> WithoutPlaceholders(members[k].1)
        {
          ValueSameIff(members[k].1, plains[k].1, mapping);
        }
        var rendered := RenderValue(value).members;
        assert plains == rendered <==> forall k | 0 <= k < |members| :: plains[k] == rendered[k];
        assert forall k | 0 <= k < |members| :: plains[k] == rendered[k] <==> plains[k].1 == RenderValue(members[k].1);
      case (Scalar(_), Scalar(_)) =>
    }
  }

  /** A tool use of an earlier reply, restored for the tool and put into the transcript, is not
      scrubbed again: the next request holds what the model wrote if and only if the model wrote
      no placeholder there. */
  lemma ToolUseGoesBackAsWrittenIff(recognise: string -> seq<Span>, uuids: Uuids, id: string, input: Json<seq<Token>>,
                                    plain: Block, order: seq<string>, mapping: map<string, string>, scrubbed: Block)
    requires WellFormed(mapping) && Enumerates(order, mapping) && BlockMeans(WrittenUse(id, input), plain, mapping)
    requires ScrubsBlock(recognise, uuids, scrubbed, RestoreReplyBlock(Sent(WrittenUse(id, input)), order, mapping))
    ensures scrubbed == Sent(WrittenUse(id, input)) <==> WithoutPlaceholders(input)
  {
    ReplyBlockRestored(WrittenUse(id, input), plain, order, mapping);
    ValueSameIff(input, plain.input, mapping);
    hide RestoreReplyBlock;
  }

  /** An earlier reply: what the model wrote, and the mapping of the request it answered. */
  datatype Reply = Reply(written: seq<Written>, order: seq<string>, mapping: map<string, string>)

  /** The blocks that the reply was restored to. */
  ghost predicate RestoredTo(r: Reply, blocks: seq<Block>) {
    WellFormed(r.mapping) && Enumerates(r.order, r.mapping) && |blocks| == |r.written| &&
    forall k | 0 <= k < |blocks| ::
      blocks[k] == RestoreReplyBlock(Sent(r.written[k]), r.order, r.mapping) &&
      BlockMeans(r.written[k], blocks[k], r.mapping)
  }

  ghost predicate UsesAsWritten(message: Message, r: Reply) {
    message.content.Blocks? && |message.content.blocks| == |r.written| &&
    forall k | 0 <= k < |r.written| && r.written[k].WrittenUse? :: message.content.blocks[k] == Sent(r.written[k])
  }

  ghost predicate UsesWithoutPlaceholders(r: Reply) {
    forall k | 0 <= k < |r.written| && r.written[k].WrittenUse? :: WithoutPlaceholders(r.written[k].input)
  }

  lemma ReplyGoesBackAsWrittenIff(recognise: string -> seq<Span>, uuids: Uuids, scrubbed: Message, message: Message,
                                  r: Reply)
    requires ScrubsMessage(recognise, uuids, scrubbed, message)
    requires message.content.Blocks? && RestoredTo(r, message.content.blocks)
    ensures UsesAsWritten(scrubbed, r) <==> UsesWithoutPlaceholders(r)
  {
    hide ScrubsBlock, BlockMeans, WithoutPlaceholders, Sent, RestoreReplyBlock;
    var plains := message.content.blocks;
    forall k | 0 <= k < |r.written| && r.written[k].WrittenUse?
      ensures scrubbed.content.blocks[k] == Sent(r.written[k]) <==> WithoutPlaceholders(r.written[k].input)
    {
      var w := r.written[k];
      assert w == WrittenUse(w.id, w.input);
      ToolUseGoesBackAsWrittenIff(recognise, uuids, w.id, w.input, plains[k], r.order, r.mapping,
                                  scrubbed.content.blocks[k]);
    }
  }

  /** A whole request: every tool use of the earlier replies in it goes out as the model wrote
      it if and only if no earlier reply had a placeholder in a tool use. */
  lemma RequestIsAsWrittenIff(recognise: string -> seq<Span>, uuids: Uuids, messages: seq<Message>,
                              replies: map<nat, Reply>, scrubbed: seq<Message>)
    requires |scrubbed| == |messages|
    requires forall i | 0 <= i < |messages| :: ScrubsMessage(recognise, uuids, scrubbed[i], messages[i])
    requires forall i | i in replies ::
               i < |messages| && messages[i].content.Blocks? && RestoredTo(replies[i], messages[i].content.blocks)
    ensures (forall i | i in replies :: UsesAsWritten(scrubbed[i], replies[i])) <==>
            (forall i | i in replies :: UsesWithoutPlaceholders(replies[i]))
  {
    hide ScrubsMessage, UsesAsWritten, UsesWithoutPlaceholders, RestoredTo;
    forall i | i in replies ensures UsesAsWritten(scrubbed[i], replies[i]) <==> UsesWithoutPlaceholders(replies[i]) {
      ReplyGoesBackAsWrittenIff(recognise, uuids, scrubbed[i], messages[i], replies[i]);
    }
  }
}
