/** What each chat handler does to the chat document it works on, as pure
    functions of the document before the call, and the properties of those
    effects. The store class applies them in place. */
module ChatFlows {
  import opened ChatTypes
  import opened ContextAssembly
  import opened MessageHistory
  import opened Titles
  import opened Streaming

  /** `get_chat_by_id`: the chat with this id, when it belongs to this user. */
  function OwnedChat(chats: map<string, ChatDoc>, samuraiId: string, chatId: string): Option<ChatDoc>
  {
    if chatId in chats && chats[chatId].owner == samuraiId then Some(chats[chatId]) else None
  }

  /** `insert_message` on the chat its filter matches: the turns are pushed
      as records numbered from `base + 1`, `updated_at` is set, and the title
      only changes when one is given. */
  function Inserted(doc: ChatDoc, turns: seq<Turn>, base: int, messageType: MessageType,
                    audioText: Option<seq<string>>, chatTitle: Option<string>, now: Timestamp): (r: ChatDoc)
    requires audioText.Some? ==> |audioText.value| >= |turns|
    ensures |r.messages| == |doc.messages| + |turns|
    ensures r.messages[..|doc.messages|] == doc.messages
    ensures forall i :: 0 <= i < |turns| ==>
              r.messages[|doc.messages| + i].messageId == base + i + 1 &&
              r.messages[|doc.messages| + i].role == turns[i].role &&
              r.messages[|doc.messages| + i].content == turns[i].content &&
              r.messages[|doc.messages| + i].messageType == messageType &&
              r.messages[|doc.messages| + i].audioText == TranscriptAt(audioText, i) &&
              r.messages[|doc.messages| + i].reaction.None? &&
              r.messages[|doc.messages| + i].isLiked.None?
    ensures r.updatedAt == now
    ensures chatTitle.None? ==> r.chatTitle == doc.chatTitle
    ensures chatTitle.Some? ==> r.chatTitle == chatTitle
    ensures r.owner == doc.owner && r.chatPrompt == doc.chatPrompt && r.createdAt == doc.createdAt
  {
    var recs := NumberedRecords(turns, base, messageType, audioText, now);
    var ms := doc.messages + recs;
    assert forall i :: 0 <= i < |turns| ==>
             ms[|doc.messages| + i] == recs[i] == NewRecord(turns[i], base + i + 1, messageType, TranscriptAt(audioText, i), now);
    doc.(messages := ms,
         updatedAt := now,
         chatTitle := if chatTitle.Some? then chatTitle else doc.chatTitle)
  }

  /** `remove_message` on the chat its filter matches. */
  function Pulled(doc: ChatDoc, k: int): ChatDoc
  {
    doc.(messages := WithoutPair(doc.messages, k))
  }

  /** The title an answer handler passes on: a generated one, with every
      double quote stripped, only when the base id is 0. */
  function TitleFor(base: int, rawTitle: string): Option<string>
  {
    if base == 0 then Some(StripQuotes(rawTitle)) else None
  }

  /** The file-name test of the audio handlers: the name ends in `mp3` or
      `m4a`, with or without a dot before it. */
  predicate IsAudioFileName(name: string)
  {
    |name| >= 3 && (name[|name| - 3..] == "mp3" || name[|name| - 3..] == "m4a")
  }

  // ---------------------------------------------------------------------
  // The question handler

  /** `question == messages_for_openai[-3]["content"]`, evaluated only on a
      list long enough to have a third entry from the end. */
  predicate MatchesThirdFromEnd(prompts: seq<PromptEntry>, question: string)
  {
    |prompts| >= 3 && prompts[|prompts| - 3].content == Some(question)
  }

  /** The removal guard of the question handler as written: a length test
      that excludes 0 and 1, then the `[-3]` lookup. `None` stands for the
      IndexError that lookup raises on a list of two entries. */
  function RemoveGuardAsWritten(prompts: seq<PromptEntry>, question: string): Option<bool>
  {
    if |prompts| == 0 || |prompts| == 1 then Some(false)
    else if |prompts| < 3 then None
    else Some(prompts[|prompts| - 3].content == Some(question))
  }

  /** The stream of the question handler: the relay run from the base id
      of the chat, regenerating when the flag is set and the question matches
      the third entry from the end. */
  function QuestionRelay(doc: ChatDoc, chatId: string, question: string, regenerate: bool,
                         chunks: seq<Chunk>): RelayState
    requires PopsSafe(|Header(doc.chatPrompt)|, doc.messages)
  {
    var ctx := QuestionContext(doc.messages, doc.chatPrompt, question);
    Relay(QuestionStream(regenerate && MatchesThirdFromEnd(ctx.0, question), chatId), chunks, ctx.1)
  }

  /** The inputs on which the regenerate test inside the stream loop can
      look up `[-3]` without running off the list: whenever the flag is set,
      the base id is not 0 and a role chunk arrives, the list has at least
      three entries. */
  predicate StreamLookupSafe(doc: ChatDoc, question: string, regenerate: bool, chunks: seq<Chunk>)
    requires PopsSafe(|Header(doc.chatPrompt)|, doc.messages)
  {
    var ctx := QuestionContext(doc.messages, doc.chatPrompt, question);
    regenerate && ctx.1 != 0 && HasRoleChunk(chunks) ==> |ctx.0| >= 3
  }

  /** The commit after a completed question stream: the old pair pulled
      when the removal guard holds, then the question and the accumulated
      answer appended at the final id, with a title only when that id is 0. */
  function CommitAnswer(doc: ChatDoc, question: string, removes: bool, answer: string, finalId: int,
                        rawTitle: string, now: Timestamp): ChatDoc
  {
    var pulled := if removes then Pulled(doc, finalId + 2) else doc;
    Inserted(pulled, [Turn(User, question), Turn(Assistant, answer)], finalId,
             Text, None, TitleFor(finalId, rawTitle), now)
  }

  /** The chat after a completed question stream. */
  function AnsweredChat(doc: ChatDoc, chatId: string, question: string, regenerate: bool,
                        chunks: seq<Chunk>, rawTitle: string, now: Timestamp): ChatDoc
    requires PopsSafe(|Header(doc.chatPrompt)|, doc.messages)
  {
    var prompts := QuestionContext(doc.messages, doc.chatPrompt, question).0;
    var relay := QuestionRelay(doc, chatId, question, regenerate, chunks);
    CommitAnswer(doc, question, regenerate && MatchesThirdFromEnd(prompts, question),
                 relay.answer, relay.messageId, rawTitle, now)
  }

  // ---------------------------------------------------------------------
  // The audio and image handlers

  /** The chat after the audio handler: the question and answer links
      stored as audio records, with their transcripts. */
  function AudioAnsweredChat(doc: ChatDoc, linkQuestion: string, question: string,
                             linkAnswer: string, answer: string, rawTitle: string, now: Timestamp): ChatDoc
  {
    var base := LastId(doc.messages);
    Inserted(doc, [Turn(User, linkQuestion), Turn(Assistant, linkAnswer)], base, Audio,
             Some([question, answer]), TitleFor(base, rawTitle), now)
  }

  /** The chat after the audio-text handler returns and before its stream
      runs: the question link stored as an audio record. */
  function AudioStreamAsked(doc: ChatDoc, linkQuestion: string, question: string, now: Timestamp): ChatDoc
  {
    Inserted(doc, [Turn(User, linkQuestion)], LastId(doc.messages), Audio, Some([question]), None, now)
  }

  /** The chat after the audio-text stream completes: the relayed answer
      appended as a text record one id past the question. */
  function AudioStreamAnswered(doc: ChatDoc, linkQuestion: string, question: string,
                               chunks: seq<Chunk>, rawTitle: string, now: Timestamp): ChatDoc
  {
    var base := LastId(doc.messages);
    Inserted(AudioStreamAsked(doc, linkQuestion, question, now),
             [Turn(Assistant, Relay(AudioTextStream, chunks, base).answer)], base + 1, Text, None,
             TitleFor(base, rawTitle), now)
  }

  /** The chat after the image handler's first insert: the question alone,
      with the title on a first message. It is all that stays when image
      generation or the upload fails. */
  function ImageAsked(doc: ChatDoc, question: string, rawTitle: string, now: Timestamp): ChatDoc
  {
    var base := LastId(doc.messages);
    Inserted(doc, [Turn(User, question)], base, Text, None, TitleFor(base, rawTitle), now)
  }

  /** The chat after the image handler: the question and the image link,
      each inserted from the same base id. */
  function ImagedChat(doc: ChatDoc, question: string, link: string, rawTitle: string, now: Timestamp): ChatDoc
  {
    var base := LastId(doc.messages);
    Inserted(ImageAsked(doc, question, rawTitle, now),
             [Turn(Assistant, link)], base, Image, None, TitleFor(base, rawTitle), now)
  }

  // ---------------------------------------------------------------------
  // Properties

  /** Every name ending in `mp3` or `m4a` passes, a dot or not; any other
      three-letter ending fails. */
  lemma AudioFileNames(stem: string, ext: string)
    requires |ext| == 3
    ensures IsAudioFileName(stem + ext) <==> ext == "mp3" || ext == "m4a"
  {
    assert (stem + ext)[|stem + ext| - 3..] == ext;
  }

  /** Without a regeneration, the question and the relayed answer are
      appended as ids `b + 1` and `b + 2` after the last id `b`, the answer
      being the relayed fragments in order. */
  lemma AnswerAppendsPair(doc: ChatDoc, chatId: string, question: string, regenerate: bool,
                          chunks: seq<Chunk>, rawTitle: string, now: Timestamp)
    requires PopsSafe(|Header(doc.chatPrompt)|, doc.messages)
    requires !(regenerate && MatchesThirdFromEnd(QuestionContext(doc.messages, doc.chatPrompt, question).0, question))
    ensures var b := LastId(doc.messages);
            var answer := Concat(Fragments(QuestionStream(false, chatId), chunks));
            AnsweredChat(doc, chatId, question, regenerate, chunks, rawTitle, now).messages
              == doc.messages + [NewRecord(Turn(User, question), b + 1, Text, None, now),
                                 NewRecord(Turn(Assistant, answer), b + 2, Text, None, now)]
    ensures AnsweredChat(doc, chatId, question, regenerate, chunks, rawTitle, now).chatTitle
            == if LastId(doc.messages) == 0 then Some(StripQuotes(rawTitle)) else doc.chatTitle
  {
    var b := LastId(doc.messages);
    var kind := QuestionStream(false, chatId);
    PlainQuestionIds(chatId, chunks, b);
    RelayedAnswerIsWhatWasSent(kind, chunks, b);
    var answer := Relay(kind, chunks, b).answer;
    assert NumberedRecords([Turn(User, question), Turn(Assistant, answer)], b, Text, None, now)
        == [NewRecord(Turn(User, question), b + 1, Text, None, now),
            NewRecord(Turn(Assistant, answer), b + 2, Text, None, now)];
  }

  /** Regenerating the last pair `{b + 1, b + 2}` of an increasing history,
      with one role chunk upstream: the pair is pulled and the new question
      and answer take exactly those ids, so ids stay increasing. */
  lemma RegenerateReusesIds(doc: ChatDoc, chatId: string, question: string,
                            pre: seq<Chunk>, c: Chunk, post: seq<Chunk>, rawTitle: string, now: Timestamp,
                            prefix: seq<Message>, q: Message, a: Message, b: int)
    requires doc.messages == prefix + [q, a] && StrictlyIncreasing(doc.messages)
    requires q.messageId == b + 1 && a.messageId == b + 2 && b >= 0
    requires PopsSafe(|Header(doc.chatPrompt)|, doc.messages)
    requires MatchesThirdFromEnd(QuestionContext(doc.messages, doc.chatPrompt, question).0, question)
    requires c.hasRole
    requires RoleCount(QuestionStream(true, chatId), pre) == 0 && RoleCount(QuestionStream(true, chatId), post) == 0
    ensures var answer := Concat(Fragments(QuestionStream(true, chatId), pre + [c] + post));
            AnsweredChat(doc, chatId, question, true, pre + [c] + post, rawTitle, now).messages
              == prefix + [NewRecord(Turn(User, question), b + 1, Text, None, now),
                           NewRecord(Turn(Assistant, answer), b + 2, Text, None, now)]
    ensures StrictlyIncreasing(AnsweredChat(doc, chatId, question, true, pre + [c] + post, rawTitle, now).messages)
    ensures AnsweredChat(doc, chatId, question, true, pre + [c] + post, rawTitle, now).chatTitle
            == if b == 0 then Some(StripQuotes(rawTitle)) else doc.chatTitle
  {
    var kind := QuestionStream(true, chatId);
    var chunks := pre + [c] + post;
    var relay := QuestionRelay(doc, chatId, question, true, chunks);
    assert relay.messageId == b && relay.answer == Concat(Fragments(kind, chunks)) by {
      assert relay == Relay(kind, chunks, b + 2) by {
        assert LastId(doc.messages) == b + 2;
      }
      RegenerateSingleRole(chatId, pre, c, post, b + 2);
      RelayedAnswerIsWhatWasSent(kind, chunks, b + 2);
    }
    assert AnsweredChat(doc, chatId, question, true, chunks, rawTitle, now)
        == CommitAnswer(doc, question, true, relay.answer, relay.messageId, rawTitle, now);
    RegenerateCommit(doc, question, relay, rawTitle, now, prefix, q, a, b);
  }

  /** The commit of a regenerated answer at final id `b`, over a history
      ending in the pair `{b + 1, b + 2}`. */
  lemma RegenerateCommit(doc: ChatDoc, question: string, relay: RelayState, rawTitle: string, now: Timestamp,
                         prefix: seq<Message>, q: Message, a: Message, b: int)
    requires doc.messages == prefix + [q, a] && StrictlyIncreasing(doc.messages)
    requires q.messageId == b + 1 && a.messageId == b + 2 && relay.messageId == b
    ensures CommitAnswer(doc, question, true, relay.answer, relay.messageId, rawTitle, now).messages
            == prefix + [NewRecord(Turn(User, question), b + 1, Text, None, now),
                         NewRecord(Turn(Assistant, relay.answer), b + 2, Text, None, now)]
    ensures StrictlyIncreasing(CommitAnswer(doc, question, true, relay.answer, relay.messageId, rawTitle, now).messages)
    ensures CommitAnswer(doc, question, true, relay.answer, relay.messageId, rawTitle, now).chatTitle
            == if b == 0 then Some(StripQuotes(rawTitle)) else doc.chatTitle
  {
    assert CommitAnswer(doc, question, true, relay.answer, relay.messageId, rawTitle, now).messages
        == WithoutPair(doc.messages, b + 2)
           + NumberedRecords([Turn(User, question), Turn(Assistant, relay.answer)], b, Text, None, now);
    RegenerateReplacesPair(prefix, q, a, b, Turn(User, question), Turn(Assistant, relay.answer), now);
  }

  /** A removing commit at final id `f`, whatever the history: the old
      messages kept are exactly those whose id is neither `f + 1` nor
      `f + 2`, and the new question and answer close the list under exactly
      those two ids, so no id of the pair is held twice. */
  lemma RemovingCommitIds(doc: ChatDoc, question: string, answer: string, f: int, rawTitle: string, now: Timestamp)
    ensures var c := CommitAnswer(doc, question, true, answer, f, rawTitle, now).messages;
            |c| >= 2 &&
            c[|c| - 2] == NewRecord(Turn(User, question), f + 1, Text, None, now) &&
            c[|c| - 1] == NewRecord(Turn(Assistant, answer), f + 2, Text, None, now) &&
            (forall m :: m in c[..|c| - 2] <==> m in doc.messages && m.messageId != f + 1 && m.messageId != f + 2)
    ensures var c := CommitAnswer(doc, question, true, answer, f, rawTitle, now).messages;
            forall j :: 0 <= j < |c| && (c[j].messageId == f + 1 || c[j].messageId == f + 2) ==> j >= |c| - 2
  {
    var kept := WithoutPair(doc.messages, f + 2);
    var pair := NumberedRecords([Turn(User, question), Turn(Assistant, answer)], f, Text, None, now);
    var c := CommitAnswer(doc, question, true, answer, f, rawTitle, now).messages;
    assert c == kept + pair;
    assert c[..|c| - 2] == kept;
    forall j | 0 <= j < |c| - 2
      ensures c[j].messageId != f + 1 && c[j].messageId != f + 2
    {
      assert c[j] == kept[j] && kept[j] in kept;
    }
  }

  /** The title of an answered chat: the stripped generated title when the
      final id is 0, the old title otherwise; it never holds a double quote. */
  lemma AnsweredTitle(doc: ChatDoc, chatId: string, question: string, regenerate: bool,
                      chunks: seq<Chunk>, rawTitle: string, now: Timestamp)
    requires PopsSafe(|Header(doc.chatPrompt)|, doc.messages)
    ensures var finalId := QuestionRelay(doc, chatId, question, regenerate, chunks).messageId;
            var t := AnsweredChat(doc, chatId, question, regenerate, chunks, rawTitle, now).chatTitle;
            (finalId == 0 ==> t == Some(StripQuotes(rawTitle)) &&
                              forall i :: 0 <= i < |t.value| ==> t.value[i] != '"') &&
            (finalId != 0 ==> t == doc.chatTitle)
  {
  }

  /** The removal guard as written raises on the first question of a chat
      that has a system prompt: the list holds the prompt and the question. */
  lemma RemoveGuardFailsOnPromptedEmptyChat(p: string, question: string)
    ensures QuestionContext([], Some(p), question).1 == 0
    ensures |QuestionContext([], Some(p), question).0| == 2
    ensures RemoveGuardAsWritten(QuestionContext([], Some(p), question).0, question).None?
  {
    assert Assemble(Some(p), []) == [PromptEntry(System, Some(p))];
  }

  /** Wherever the guard as written does not raise, it decides as the
      corrected guard does; the corrected guard is defined on every list. */
  lemma RemoveGuardsAgree(prompts: seq<PromptEntry>, question: string)
    ensures RemoveGuardAsWritten(prompts, question).Some? <==> |prompts| != 2
    ensures |prompts| != 2 ==> RemoveGuardAsWritten(prompts, question) == Some(MatchesThirdFromEnd(prompts, question))
  {
  }

  /** Two plain messages appended to a history add their two entries to
      the assembled list. */
  lemma FoldTwoPlain(acc: seq<PromptEntry>, ms: seq<Message>, x: Message, y: Message)
    requires PopsSafe(|acc|, ms)
    requires x.messageType != Image && y.messageType != Image
    ensures PopsSafe(|acc|, ms + [x, y])
    ensures Fold(acc, ms + [x, y]) == Fold(acc, ms) + [EntryOf(x), EntryOf(y)]
  {
    var before := Fold(acc, ms);
    assert [x, y][1..] == [y];
    assert [y][1..] == [];
    assert Fold(before + [EntryOf(x)], [y]) == before + [EntryOf(x)] + [EntryOf(y)];
    assert Fold(before, [x, y]) == Fold(before + [EntryOf(x)], [y]);
    FoldAppend(acc, ms, [x, y]);
  }

  /** The audio handler stores links, but later prompt lists see the
      transcripts: the question and answer text, in that order. */
  lemma AudioExchangeReadsAsText(doc: ChatDoc, linkQuestion: string, question: string,
                                 linkAnswer: string, answer: string, rawTitle: string, now: Timestamp,
                                 chatPrompt: Option<string>)
    requires PopsSafe(|Header(chatPrompt)|, doc.messages)
    ensures var after := AudioAnsweredChat(doc, linkQuestion, question, linkAnswer, answer, rawTitle, now);
            PopsSafe(|Header(chatPrompt)|, after.messages) &&
            Assemble(chatPrompt, after.messages)
              == Assemble(chatPrompt, doc.messages) + [PromptEntry(User, Some(question)), PromptEntry(Assistant, Some(answer))]
  {
    var base := LastId(doc.messages);
    var x := NewRecord(Turn(User, linkQuestion), base + 1, Audio, Some(question), now);
    var y := NewRecord(Turn(Assistant, linkAnswer), base + 2, Audio, Some(answer), now);
    assert NumberedRecords([Turn(User, linkQuestion), Turn(Assistant, linkAnswer)], base, Audio,
                           Some([question, answer]), now) == [x, y];
    FoldTwoPlain(Header(chatPrompt), doc.messages, x, y);
  }

  /** The audio-text handler stores the question (an audio record) before
      streaming, and the relayed answer (a text record) after it, as ids
      `b + 1` and `b + 2`. */
  lemma AudioStreamAppendsPair(doc: ChatDoc, linkQuestion: string, question: string,
                               chunks: seq<Chunk>, rawTitle: string, now: Timestamp)
    ensures var b := LastId(doc.messages);
            AudioStreamAsked(doc, linkQuestion, question, now).messages
              == doc.messages + [NewRecord(Turn(User, linkQuestion), b + 1, Audio, Some(question), now)]
    ensures var b := LastId(doc.messages);
            var answer := Concat(Fragments(AudioTextStream, chunks));
            AudioStreamAnswered(doc, linkQuestion, question, chunks, rawTitle, now).messages
              == doc.messages + [NewRecord(Turn(User, linkQuestion), b + 1, Audio, Some(question), now),
                                 NewRecord(Turn(Assistant, answer), b + 2, Text, None, now)]
  {
    var b := LastId(doc.messages);
    var x := NewRecord(Turn(User, linkQuestion), b + 1, Audio, Some(question), now);
    var asked := AudioStreamAsked(doc, linkQuestion, question, now);
    assert asked.messages == doc.messages + [x] by {
      OneRecord(Turn(User, linkQuestion), b, Audio, Some([question]), now);
    }
    var answer := Relay(AudioTextStream, chunks, b).answer;
    assert answer == Concat(Fragments(AudioTextStream, chunks)) by {
      RelayedAnswerIsWhatWasSent(AudioTextStream, chunks, b);
    }
    var y := NewRecord(Turn(Assistant, answer), b + 2, Text, None, now);
    assert AudioStreamAnswered(doc, linkQuestion, question, chunks, rawTitle, now).messages
        == asked.messages + [y] by {
      OneRecord(Turn(Assistant, answer), b + 1, Text, None, now);
    }
    assert asked.messages + [y] == doc.messages + [x, y];
  }

  /** The messages the image handler leaves: the question and the image
      link, both numbered `b + 1`. */
  lemma ImagedMessages(doc: ChatDoc, question: string, link: string, rawTitle: string, now: Timestamp)
    ensures var b := LastId(doc.messages);
            ImagedChat(doc, question, link, rawTitle, now).messages
              == doc.messages + [NewRecord(Turn(User, question), b + 1, Text, None, now),
                                 NewRecord(Turn(Assistant, link), b + 1, Image, None, now)]
  {
    var b := LastId(doc.messages);
    OneRecord(Turn(User, question), b, Text, None, now);
    OneRecord(Turn(Assistant, link), b, Image, None, now);
  }

  /** A failed image request leaves its question stored alone as id
      `b + 1`, and every later prompt list carries it as a plain user
      entry. */
  lemma ImageFailureLeavesQuestion(doc: ChatDoc, question: string, rawTitle: string, now: Timestamp,
                                   chatPrompt: Option<string>)
    requires PopsSafe(|Header(chatPrompt)|, doc.messages)
    ensures var asked := ImageAsked(doc, question, rawTitle, now).messages;
            asked == doc.messages + [NewRecord(Turn(User, question), LastId(doc.messages) + 1, Text, None, now)] &&
            PopsSafe(|Header(chatPrompt)|, asked) &&
            Assemble(chatPrompt, asked) == Assemble(chatPrompt, doc.messages) + [PromptEntry(User, Some(question))]
  {
    var b := LastId(doc.messages);
    var q := NewRecord(Turn(User, question), b + 1, Text, None, now);
    var asked := ImageAsked(doc, question, rawTitle, now).messages;
    assert asked == doc.messages + [q] by {
      OneRecord(Turn(User, question), b, Text, None, now);
    }
    FoldAppend(Header(chatPrompt), doc.messages, [q]);
    assert [q][1..] == [];
  }

  /** The image handler gives the question and the image reply the same id
      `b + 1`, so ids stop being strictly increasing. */
  lemma ImageRepeatsId(doc: ChatDoc, question: string, link: string, rawTitle: string, now: Timestamp)
    ensures !StrictlyIncreasing(ImagedChat(doc, question, link, rawTitle, now).messages)
  {
    var b := LastId(doc.messages);
    ImagedMessages(doc, question, link, rawTitle, now);
    ImagePathRepeatsId(doc.messages, Turn(User, question), Turn(Assistant, link), b, now);
  }

  /** An image exchange leaves later prompt lists as they were: the image
      record pops the question's entry. */
  lemma ImageExchangeInvisible(doc: ChatDoc, question: string, link: string, rawTitle: string, now: Timestamp,
                               chatPrompt: Option<string>)
    requires PopsSafe(|Header(chatPrompt)|, doc.messages)
    ensures var after := ImagedChat(doc, question, link, rawTitle, now);
            PopsSafe(|Header(chatPrompt)|, after.messages) &&
            Assemble(chatPrompt, after.messages) == Assemble(chatPrompt, doc.messages)
  {
    var b := LastId(doc.messages);
    var q := NewRecord(Turn(User, question), b + 1, Text, None, now);
    var img := NewRecord(Turn(Assistant, link), b + 1, Image, None, now);
    var after := ImagedChat(doc, question, link, rawTitle, now).messages;
    assert after == doc.messages + [q, img] by {
      ImagedMessages(doc, question, link, rawTitle, now);
    }
    assert PopsSafe(|Header(chatPrompt)|, after) && Fold(Header(chatPrompt), after) == Fold(Header(chatPrompt), doc.messages) by {
      ImageDropsQuestion(Header(chatPrompt), doc.messages, q, img);
    }
  }
}
