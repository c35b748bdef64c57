/** The generators that relay an upstream streamed completion to the
    client: what they yield, the answer they accumulate and the id they
    leave for the commit that follows the stream. */
module Streaming {
  import opened ChatTypes
  import opened ControlTokens

  /** The part of one upstream chunk the relays read: whether its delta
      carries a `role` key, and its `content` key if present. */
  datatype Chunk = Chunk(hasRole: bool, content: Option<string>)

  /** The question relay knows whether the regenerate test matched (the flag
      is set, and the question equals the content three entries from the end
      of the prompt list) and the chat id it names in control tokens; the
      audio-text relay knows neither. */
  datatype StreamKind =
    | QuestionStream(regenMatch: bool, chatId: string)
    | AudioTextStream

  /** One yielded string, before it is rendered. */
  datatype Emitted = Control(messageId: int, chatId: string) | Delta(text: string)

  function Render(e: Emitted): string
  {
    match e
    case Control(id, chatId) => ControlToken(id, chatId)
    case Delta(text) => text
  }

  function RenderAll(es: seq<Emitted>): (r: seq<string>)
    ensures |r| == |es|
  {
    seq(|es|, i requires 0 <= i < |es| => Render(es[i]))
  }

  /** What the relay holds between chunks. */
  datatype RelayState = RelayState(emitted: seq<Emitted>, answer: string, messageId: int)

  /** Whether a chunk's role key produces a control token. */
  predicate AnnouncesRole(kind: StreamKind, c: Chunk)
  {
    kind.QuestionStream? && c.hasRole
  }

  /** The text a chunk contributes: its content, unless the audio-text relay
      skips the chunk for carrying a role key. */
  function ChunkFragments(kind: StreamKind, c: Chunk): seq<string>
  {
    if c.content.Some? && !(kind.AudioTextStream? && c.hasRole) then [c.content.value] else []
  }

  /** The id after a chunk: a role chunk of a regenerating question lowers a
      non-zero id by two, each time it arrives. */
  function NextId(kind: StreamKind, id: int, c: Chunk): int
  {
    if AnnouncesRole(kind, c) && kind.regenMatch && id != 0 then id - 2 else id
  }

  /** What a chunk yields: the control token first, then the text. */
  function StepEmits(kind: StreamKind, id: int, c: Chunk): seq<Emitted>
  {
    (if AnnouncesRole(kind, c) then [Control(NextId(kind, id, c) + 2, kind.chatId)] else [])
    + (if ChunkFragments(kind, c) == [] then [] else [Delta(c.content.value)])
  }

  function StepChunk(kind: StreamKind, st: RelayState, c: Chunk): RelayState
  {
    RelayState(st.emitted + StepEmits(kind, st.messageId, c),
               st.answer + Concat(ChunkFragments(kind, c)),
               NextId(kind, st.messageId, c))
  }

  function RelayFrom(kind: StreamKind, st: RelayState, cs: seq<Chunk>): RelayState
    decreases |cs|
  {
    if cs == [] then st else RelayFrom(kind, StepChunk(kind, st, cs[0]), cs[1..])
  }

  /** The whole relay, starting with nothing yielded, an empty answer and the
      id the prompt list was built with. */
  function Relay(kind: StreamKind, cs: seq<Chunk>, base: int): RelayState
  {
    RelayFrom(kind, RelayState([], "", base), cs)
  }

  /** The generator loop: each chunk is handled as the relay above does. */
  method RelayChunks(kind: StreamKind, chunks: seq<Chunk>, base: int)
    returns (yielded: seq<string>, completeAnswer: string, messageId: int)
    ensures yielded == RenderAll(Relay(kind, chunks, base).emitted)
    ensures completeAnswer == Relay(kind, chunks, base).answer
    ensures messageId == Relay(kind, chunks, base).messageId
  {
    yielded, completeAnswer, messageId := [], "", base;
    ghost var emitted: seq<Emitted> := [];
    for i := 0 to |chunks|
      invariant yielded == RenderAll(emitted)
      invariant RelayFrom(kind, RelayState(emitted, completeAnswer, messageId), chunks[i..])
                == Relay(kind, chunks, base)
    {
      ghost var before := RelayState(emitted, completeAnswer, messageId);
      assert RelayFrom(kind, before, chunks[i..]) == RelayFrom(kind, StepChunk(kind, before, chunks[i]), chunks[i + 1..]) by {
        assert chunks[i..][0] == chunks[i] && chunks[i..][1..] == chunks[i + 1..];
      }
      var out, word;
      out, word, messageId := RelayOne(kind, chunks[i], messageId);
      ghost var step := StepEmits(kind, before.messageId, chunks[i]);
      assert RenderAll(emitted + step) == yielded + out;
      yielded, completeAnswer := yielded + out, completeAnswer + word;
      emitted := emitted + step;
    }
    assert chunks[|chunks|..] == [];
  }

  /** The body of the generator loop for one chunk: what it yields, the text
      it adds to the answer and the id it leaves. */
  method RelayOne(kind: StreamKind, chunk: Chunk, messageId: int)
    returns (out: seq<string>, word: string, nextId: int)
    ensures out == RenderAll(StepEmits(kind, messageId, chunk))
    ensures word == Concat(ChunkFragments(kind, chunk))
    ensures nextId == NextId(kind, messageId, chunk)
  {
    out, word, nextId := [], "", messageId;
    assert Concat([]) == "";
    if kind.AudioTextStream? && chunk.hasRole {
      return;
    }
    if kind.QuestionStream? && chunk.hasRole {
      if kind.regenMatch && messageId != 0 {
        nextId := messageId - 2;
      }
      out := [ControlToken(nextId + 2, kind.chatId)];
    }
    if chunk.content.Some? {
      word := chunk.content.value;
      assert Concat([word]) == word;
      out := out + [word];
    }
  }

  // ---------------------------------------------------------------------
  // Views of what was relayed

  /** Whether any chunk carries a role key. */
  predicate HasRoleChunk(cs: seq<Chunk>)
  {
    exists j :: 0 <= j < |cs| && cs[j].hasRole
  }

  /** The text fragments of a chunk sequence, in arrival order. */
  function Fragments(kind: StreamKind, cs: seq<Chunk>): seq<string>
    decreases |cs|
  {
    if cs == [] then [] else ChunkFragments(kind, cs[0]) + Fragments(kind, cs[1..])
  }

  /** Fragments glued together, first to last. */
  function Concat(fs: seq<string>): string
  {
    if fs == [] then "" else fs[0] + Concat(fs[1..])
  }

  /** The texts of the yielded items, in order. */
  function DeltaTexts(es: seq<Emitted>): seq<string>
  {
    if es == [] then [] else (if es[0].Delta? then [es[0].text] else []) + DeltaTexts(es[1..])
  }

  /** The ids named by the yielded control tokens, in order. */
  function ControlIds(es: seq<Emitted>): seq<int>
  {
    if es == [] then [] else (if es[0].Control? then [es[0].messageId] else []) + ControlIds(es[1..])
  }

  /** The number of chunks that produce a control token. */
  function RoleCount(kind: StreamKind, cs: seq<Chunk>): nat
    decreases |cs|
  {
    if cs == [] then 0 else (if AnnouncesRole(kind, cs[0]) then 1 else 0) + RoleCount(kind, cs[1..])
  }

  // ---------------------------------------------------------------------
  // Properties

  lemma {:induction false} ConcatAppend(a: seq<string>, b: seq<string>)
    ensures Concat(a + b) == Concat(a) + Concat(b)
    decreases |a|
  {
    if a == [] {
      assert a + b == b;
    } else {
      assert (a + b)[1..] == a[1..] + b;
      ConcatAppend(a[1..], b);
    }
  }

  lemma {:induction false} DeltaTextsAppend(a: seq<Emitted>, b: seq<Emitted>)
    ensures DeltaTexts(a + b) == DeltaTexts(a) + DeltaTexts(b)
    decreases |a|
  {
    if a == [] {
      assert a + b == b;
    } else {
      assert (a + b)[1..] == a[1..] + b;
      DeltaTextsAppend(a[1..], b);
    }
  }

  lemma {:induction false} ControlIdsAppend(a: seq<Emitted>, b: seq<Emitted>)
    ensures ControlIds(a + b) == ControlIds(a) + ControlIds(b)
    decreases |a|
  {
    if a == [] {
      assert a + b == b;
    } else {
      assert (a + b)[0] == a[0];
      assert (a + b)[1..] == a[1..] + b;
      ControlIdsAppend(a[1..], b);
      assert ControlIds(a + b)
          == (if a[0].Control? then [a[0].messageId] else []) + ControlIds(a[1..] + b);
    }
  }

  /** What one chunk yields, seen through the two views. */
  lemma StepEmitsViews(kind: StreamKind, id: int, c: Chunk)
    ensures DeltaTexts(StepEmits(kind, id, c)) == ChunkFragments(kind, c)
    ensures ControlIds(StepEmits(kind, id, c))
            == if AnnouncesRole(kind, c) then [NextId(kind, id, c) + 2] else []
  {
    var ctl: seq<Emitted> := if AnnouncesRole(kind, c) then [Control(NextId(kind, id, c) + 2, kind.chatId)] else [];
    var txt: seq<Emitted> := if ChunkFragments(kind, c) == [] then [] else [Delta(c.content.value)];
    DeltaTextsAppend(ctl, txt);
    ControlIdsAppend(ctl, txt);
    assert DeltaTexts(ctl) == [] by {
      if ctl != [] { assert ctl[1..] == []; }
    }
    assert ControlIds(txt) == [] by {
      if txt != [] { assert txt[1..] == []; }
    }
    if ctl != [] { assert ctl[1..] == []; }
    if txt != [] { assert txt[1..] == []; }
  }

  /** The relay appends to what it has yielded and accumulated: the texts it
      yields are the fragments in order, the answer is their concatenation,
      and it yields one control token per role chunk. */
  lemma {:induction false} RelayFromAppends(kind: StreamKind, st: RelayState, cs: seq<Chunk>)
    ensures RelayFrom(kind, st, cs).answer == st.answer + Concat(Fragments(kind, cs))
    ensures DeltaTexts(RelayFrom(kind, st, cs).emitted) == DeltaTexts(st.emitted) + Fragments(kind, cs)
    ensures |ControlIds(RelayFrom(kind, st, cs).emitted)| == |ControlIds(st.emitted)| + RoleCount(kind, cs)
    decreases |cs|
  {
    if cs != [] {
      var c := cs[0];
      var next := StepChunk(kind, st, c);
      RelayFromAppends(kind, next, cs[1..]);
      StepEmitsViews(kind, st.messageId, c);
      DeltaTextsAppend(st.emitted, StepEmits(kind, st.messageId, c));
      ControlIdsAppend(st.emitted, StepEmits(kind, st.messageId, c));
      ConcatAppend(ChunkFragments(kind, c), Fragments(kind, cs[1..]));
    }
  }

  /** What the client receives as text is exactly the fragments upstream
      sent, in order, and the answer committed afterwards is their
      concatenation; one control token is yielded per role chunk. */
  lemma RelayedAnswerIsWhatWasSent(kind: StreamKind, cs: seq<Chunk>, base: int)
    ensures DeltaTexts(Relay(kind, cs, base).emitted) == Fragments(kind, cs)
    ensures Relay(kind, cs, base).answer == Concat(DeltaTexts(Relay(kind, cs, base).emitted))
    ensures |ControlIds(Relay(kind, cs, base).emitted)| == RoleCount(kind, cs)
  {
    RelayFromAppends(kind, RelayState([], "", base), cs);
  }

  /** Every control token of the question relay names that relay's chat. */
  lemma {:induction false} ControlsNameChatFrom(kind: StreamKind, st: RelayState, cs: seq<Chunk>)
    requires kind.QuestionStream?
    requires forall e :: e in st.emitted && e.Control? ==> e.chatId == kind.chatId
    ensures forall e :: e in RelayFrom(kind, st, cs).emitted && e.Control? ==> e.chatId == kind.chatId
    decreases |cs|
  {
    if cs != [] {
      ControlsNameChatFrom(kind, StepChunk(kind, st, cs[0]), cs[1..]);
    }
  }

  lemma ControlsNameChat(kind: StreamKind, cs: seq<Chunk>, base: int)
    requires kind.QuestionStream?
    ensures forall e :: e in Relay(kind, cs, base).emitted && e.Control? ==> e.chatId == kind.chatId
  {
    ControlsNameChatFrom(kind, RelayState([], "", base), cs);
  }

  /** The audio-text relay never yields a control token. */
  lemma {:induction false} AudioRelayHasNoControlFrom(st: RelayState, cs: seq<Chunk>)
    ensures ControlIds(RelayFrom(AudioTextStream, st, cs).emitted) == ControlIds(st.emitted)
    ensures RelayFrom(AudioTextStream, st, cs).messageId == st.messageId
    decreases |cs|
  {
    if cs != [] {
      var next := StepChunk(AudioTextStream, st, cs[0]);
      AudioRelayHasNoControlFrom(next, cs[1..]);
      StepEmitsViews(AudioTextStream, st.messageId, cs[0]);
      ControlIdsAppend(st.emitted, StepEmits(AudioTextStream, st.messageId, cs[0]));
    }
  }

  lemma AudioRelayHasNoControl(cs: seq<Chunk>, base: int)
    ensures ControlIds(Relay(AudioTextStream, cs, base).emitted) == []
    ensures Relay(AudioTextStream, cs, base).messageId == base
  {
    AudioRelayHasNoControlFrom(RelayState([], "", base), cs);
  }

  /** Without a regenerate match the id never moves, and every control token
      names the id the next assistant message will get. */
  lemma {:induction false} PlainQuestionIdsFrom(chatId: string, st: RelayState, cs: seq<Chunk>)
    requires forall x :: x in ControlIds(st.emitted) ==> x == st.messageId + 2
    ensures RelayFrom(QuestionStream(false, chatId), st, cs).messageId == st.messageId
    ensures forall x :: x in ControlIds(RelayFrom(QuestionStream(false, chatId), st, cs).emitted) ==>
                        x == st.messageId + 2
    decreases |cs|
  {
    if cs != [] {
      var kind := QuestionStream(false, chatId);
      var next := StepChunk(kind, st, cs[0]);
      StepEmitsViews(kind, st.messageId, cs[0]);
      ControlIdsAppend(st.emitted, StepEmits(kind, st.messageId, cs[0]));
      PlainQuestionIdsFrom(chatId, next, cs[1..]);
    }
  }

  lemma PlainQuestionIds(chatId: string, cs: seq<Chunk>, base: int)
    ensures Relay(QuestionStream(false, chatId), cs, base).messageId == base
    ensures forall x :: x in ControlIds(Relay(QuestionStream(false, chatId), cs, base).emitted) ==> x == base + 2
  {
    PlainQuestionIdsFrom(chatId, RelayState([], "", base), cs);
  }

  /** With a regenerate match, each role chunk lowers an even non-negative
      id by two until it reaches 0. */
  lemma {:induction false} RegenerateIdFloorFrom(chatId: string, st: RelayState, cs: seq<Chunk>)
    requires st.messageId >= 0 && st.messageId % 2 == 0
    ensures var k := RoleCount(QuestionStream(true, chatId), cs);
            RelayFrom(QuestionStream(true, chatId), st, cs).messageId
              == if st.messageId >= 2 * k then st.messageId - 2 * k else 0
    decreases |cs|
  {
    if cs != [] {
      var kind := QuestionStream(true, chatId);
      RegenerateIdFloorFrom(chatId, StepChunk(kind, st, cs[0]), cs[1..]);
    }
  }

  lemma RegenerateIdFloor(chatId: string, cs: seq<Chunk>, base: int)
    requires base >= 0 && base % 2 == 0
    ensures var k := RoleCount(QuestionStream(true, chatId), cs);
            Relay(QuestionStream(true, chatId), cs, base).messageId
              == if base >= 2 * k then base - 2 * k else 0
  {
    RegenerateIdFloorFrom(chatId, RelayState([], "", base), cs);
  }

  lemma {:induction false} RelayFromAppend(kind: StreamKind, st: RelayState, a: seq<Chunk>, b: seq<Chunk>)
    ensures RelayFrom(kind, st, a + b) == RelayFrom(kind, RelayFrom(kind, st, a), b)
    decreases |a|
  {
    if a == [] {
      assert a + b == b;
    } else {
      assert (a + b)[1..] == a[1..] + b;
      RelayFromAppend(kind, StepChunk(kind, st, a[0]), a[1..], b);
    }
  }

  /** Chunks without a role key neither move the id nor yield a token. */
  lemma {:induction false} RoleFreeKeepsId(kind: StreamKind, st: RelayState, cs: seq<Chunk>)
    requires RoleCount(kind, cs) == 0
    ensures RelayFrom(kind, st, cs).messageId == st.messageId
    ensures ControlIds(RelayFrom(kind, st, cs).emitted) == ControlIds(st.emitted)
    decreases |cs|
  {
    if cs != [] {
      StepEmitsViews(kind, st.messageId, cs[0]);
      ControlIdsAppend(st.emitted, StepEmits(kind, st.messageId, cs[0]));
      RoleFreeKeepsId(kind, StepChunk(kind, st, cs[0]), cs[1..]);
    }
  }

  /** The usual regenerated stream, with one role chunk: the token names the
      id of the assistant message being replaced, and the new pair is written
      two ids lower, over the pair being removed. */
  lemma RegenerateSingleRole(chatId: string, a: seq<Chunk>, c: Chunk, b: seq<Chunk>, base: int)
    requires base != 0 && c.hasRole
    requires RoleCount(QuestionStream(true, chatId), a) == 0
    requires RoleCount(QuestionStream(true, chatId), b) == 0
    ensures ControlIds(Relay(QuestionStream(true, chatId), a + [c] + b, base).emitted) == [base]
    ensures Relay(QuestionStream(true, chatId), a + [c] + b, base).messageId == base - 2
  {
    var kind := QuestionStream(true, chatId);
    var s0 := RelayState([], "", base);
    var s1 := RelayFrom(kind, s0, a);
    RoleFreeKeepsId(kind, s0, a);
    var s2 := RelayFrom(kind, s1, [c]);
    assert s2 == StepChunk(kind, s1, c) by {
      assert [c][1..] == [];
      assert RelayFrom(kind, StepChunk(kind, s1, c), []) == StepChunk(kind, s1, c);
    }
    StepEmitsViews(kind, s1.messageId, c);
    ControlIdsAppend(s1.emitted, StepEmits(kind, s1.messageId, c));
    RoleFreeKeepsId(kind, s2, b);
    RelayFromAppend(kind, s0, a, [c]);
    RelayFromAppend(kind, s0, a + [c], b);
  }
}
