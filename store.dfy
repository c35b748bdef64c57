/** The document store the chat handlers work on: chat documents keyed by
    chat id and user documents keyed by user id, updated in place by the
    handlers. */
module ChatStore {
  import opened ChatTypes
  import opened ContextAssembly
  import opened MessageHistory
  import opened Reactions
  import opened Quota
  import opened Streaming
  import opened ChatFlows

  /** The body of a reaction reply. */
  datatype Response = Response(statusCode: int, responseType: string, description: string)

  /** `generate_response`. */
  function GenerateResponse(description: string): Response
  {
    Response(202, "SUCCESS", description)
  }

  /** The `data` of the audio handler's reply. */
  datatype AudioReply = AudioReply(question: string, questionText: string, answer: string, answerText: string)

  /** The `data` of the image handler's reply. */
  datatype ImageReply = ImageReply(question: string, link: string)

  class Store {
    var chats: map<string, ChatDoc>
    var users: map<string, UserDoc>

    /** An empty store: no chats and no users. */
    constructor()
      ensures Valid() && chats == map[] && users == map[]
    {
      chats := map[];
      users := map[];
    }

    /** No user's free-query counter is negative. */
    ghost predicate Valid()
      reads this
    {
      forall u :: u in users ==> users[u].subscription.freeQueries >= 0
    }

    /** `check_all_queries_used`: an inactive user with no free queries left
        is refused; any other inactive user spends one. */
    method CheckAllQueriesUsed(samuraiId: string) returns (r: Outcome<Error>)
      requires Valid() && samuraiId in users
      modifies this
      ensures Valid() && chats == old(chats)
      ensures QuotaGate(old(users[samuraiId].subscription)).Failure? ==>
                r == Fail(FreeQueriesUsed) && users == old(users)
      ensures QuotaGate(old(users[samuraiId].subscription)).Success? ==>
                r == Pass &&
                users == old(users)[samuraiId := UserDoc(QuotaGate(old(users[samuraiId].subscription)).value)]
    {
      var subscription := users[samuraiId].subscription;
      if !subscription.active {
        if subscription.freeQueries == 0 {
          return Fail(FreeQueriesUsed);
        }
        users := users[samuraiId := UserDoc(subscription.(freeQueries := subscription.freeQueries - 1))];
      }
      return Pass;
    }

    /** `insert_message`: the turns, numbered from `messageId + 1`, pushed
        onto the chat the filter matches; nothing changes when none does. */
    method InsertMessage(samuraiId: string, chatId: string, messages: seq<Turn>, messageId: int,
                         messageType: MessageType, audioText: Option<seq<string>>,
                         chatTitle: Option<string>, now: Timestamp)
      requires Valid()
      requires audioText.Some? ==> |audioText.value| >= |messages|
      modifies this
      ensures Valid() && users == old(users)
      ensures OwnedChat(old(chats), samuraiId, chatId).None? ==> chats == old(chats)
      ensures OwnedChat(old(chats), samuraiId, chatId).Some? ==>
                chats == old(chats)[chatId := Inserted(old(chats)[chatId], messages, messageId, messageType,
                                                       audioText, chatTitle, now)]
    {
      var newMessages := BuildRecords(messages, messageId, messageType, audioText, now);
      if chatId in chats && chats[chatId].owner == samuraiId {
        var doc := chats[chatId];
        var title := if chatTitle.Some? then chatTitle else doc.chatTitle;
        chats := chats[chatId := doc.(messages := doc.messages + newMessages, updatedAt := now, chatTitle := title)];
      }
    }

    /** `remove_message`: pull the messages with id `messageId` or
        `messageId - 1` from the chat the filter matches. */
    method RemoveMessage(samuraiId: string, chatId: string, messageId: int)
      requires Valid()
      modifies this
      ensures Valid() && users == old(users)
      ensures OwnedChat(old(chats), samuraiId, chatId).None? ==> chats == old(chats)
      ensures OwnedChat(old(chats), samuraiId, chatId).Some? ==>
                chats == old(chats)[chatId := Pulled(old(chats)[chatId], messageId)]
    {
      if chatId in chats && chats[chatId].owner == samuraiId {
        chats := chats[chatId := Pulled(chats[chatId], messageId)];
      }
    }

    /** `update_reaction`: set (or, for None, unset) `is_liked` on the first
        message with this id in the chat the filter matches. */
    method UpdateReaction(samuraiId: string, chatId: string, messageId: int, isLiked: Option<bool>, now: Timestamp)
      requires Valid()
      modifies this
      ensures Valid() && users == old(users)
      ensures OwnedChat(old(chats), samuraiId, chatId).None? ==> chats == old(chats)
      ensures OwnedChat(old(chats), samuraiId, chatId).Some? ==>
                chats == old(chats)[chatId := old(chats)[chatId].(messages :=
                           Reactions.UpdateReaction(old(chats)[chatId].messages, messageId, isLiked, now))]
    {
      if chatId in chats && chats[chatId].owner == samuraiId {
        var doc := chats[chatId];
        chats := chats[chatId := doc.(messages := Reactions.UpdateReaction(doc.messages, messageId, isLiked, now))];
      }
    }

    /** The writes of one reaction: the target, then `id - 1` when the id
        is even. */
    method WriteReaction(samuraiId: string, chatId: string, messageId: int, isLiked: Option<bool>, now: Timestamp)
      requires Valid()
      modifies this
      ensures Valid() && users == old(users)
      ensures OwnedChat(old(chats), samuraiId, chatId).None? ==> chats == old(chats)
      ensures OwnedChat(old(chats), samuraiId, chatId).Some? ==>
                var first := Reactions.UpdateReaction(old(chats)[chatId].messages, messageId, isLiked, now);
                chats == old(chats)[chatId := old(chats)[chatId].(messages :=
                           if messageId % 2 == 0 then Reactions.UpdateReaction(first, messageId - 1, isLiked, now)
                           else first)]
    {
      UpdateReaction(samuraiId, chatId, messageId, isLiked, now);
      if messageId % 2 == 0 {
        UpdateReaction(samuraiId, chatId, messageId - 1, isLiked, now);
      }
    }

    /** `message_like_dislike`: clear the reaction when it already has the
        requested value, set it otherwise; an even id also updates `id - 1`. */
    method MessageLikeDislike(samuraiId: string, chatId: string, messageId: int, isLiked: bool, now: Timestamp)
      returns (r: Result<Response, Error>)
      requires Valid() && messageId > 0
      modifies this
      ensures Valid() && users == old(users)
      ensures OwnedChat(old(chats), samuraiId, chatId).None? ==>
                r == Failure(MessageNotFound) && chats == old(chats)
      ensures OwnedChat(old(chats), samuraiId, chatId).Some? ==>
                var toggled := Toggle(old(chats)[chatId].messages, messageId, isLiked, now);
                (toggled.Failure? ==> r == Failure(MessageNotFound) && chats == old(chats)) &&
                (toggled.Success? ==>
                   r == Success(GenerateResponse(ReactionDescription(toggled.value.1))) &&
                   chats == old(chats)[chatId := old(chats)[chatId].(messages := toggled.value.0)])
    {
      if !(chatId in chats && chats[chatId].owner == samuraiId) {
        return Failure(MessageNotFound);
      }
      var found := FirstIndex(chats[chatId].messages, messageId);
      if found.None? {
        return Failure(MessageNotFound);
      }
      var messageIsLiked := chats[chatId].messages[found.value].isLiked;
      ghost var ms := chats[chatId].messages;
      ghost var v: Option<bool> := if messageIsLiked == Some(isLiked) then None else Some(isLiked);
      ghost var first := Reactions.UpdateReaction(ms, messageId, v, now);
      assert Toggle(ms, messageId, isLiked, now)
          == Success((if messageId % 2 == 0 then Reactions.UpdateReaction(first, messageId - 1, v, now) else first,
                      if v.None? then ReactionRemoved else ReactionSet(isLiked)));
      if messageIsLiked.Some? && messageIsLiked.value == isLiked {
        WriteReaction(samuraiId, chatId, messageId, None, now);
        return Success(GenerateResponse(ReactionDescription(ReactionRemoved)));
      }
      WriteReaction(samuraiId, chatId, messageId, Some(isLiked), now);
      return Success(GenerateResponse(ReactionDescription(ReactionSet(isLiked))));
    }

    /** `gpt_answer_stream`: spend a query, find the chat, build the prompt
        list and base id, relay the stream and, once it has run to its end,
        commit the question and the answer (after pulling the old pair when
        regenerating), unless the removal guard raises first. */
    method GptAnswerStream(samuraiId: string, chatId: string, question: string, regenerateResponse: bool,
                           chunks: seq<Chunk>, completes: bool, rawTitle: string, now: Timestamp)
      returns (r: Result<seq<string>, Error>)
      requires Valid() && samuraiId in users
      requires OwnedChat(chats, samuraiId, chatId).Some? ==>
                 var doc := chats[chatId];
                 PopsSafe(|Header(doc.chatPrompt)|, doc.messages) &&
                 StreamLookupSafe(doc, question, regenerateResponse, chunks)
      modifies this
      ensures Valid()
      ensures QuotaGate(old(users[samuraiId].subscription)).Failure? ==>
                r == Failure(FreeQueriesUsed) && users == old(users) && chats == old(chats)
      ensures QuotaGate(old(users[samuraiId].subscription)).Success? ==>
                users == old(users)[samuraiId := UserDoc(QuotaGate(old(users[samuraiId].subscription)).value)]
      ensures QuotaGate(old(users[samuraiId].subscription)).Success? &&
              OwnedChat(old(chats), samuraiId, chatId).None? ==>
                r == Failure(ChatIdNotFound) && chats == old(chats)
      ensures QuotaGate(old(users[samuraiId].subscription)).Success? &&
              OwnedChat(old(chats), samuraiId, chatId).Some? ==>
                r == Success(RenderAll(QuestionRelay(old(chats)[chatId], chatId, question,
                                                     regenerateResponse, chunks).emitted)) &&
                var doc := old(chats)[chatId];
                var prompts := QuestionContext(doc.messages, doc.chatPrompt, question).0;
                chats == if completes && !(regenerateResponse && RemoveGuardAsWritten(prompts, question).None?)
                         then old(chats)[chatId := AnsweredChat(doc, chatId, question,
                                                                regenerateResponse, chunks, rawTitle, now)]
                         else old(chats)
    {
      var gate := CheckAllQueriesUsed(samuraiId);
      if gate.Fail? {
        return Failure(gate.error);
      }
      if !(chatId in chats && chats[chatId].owner == samuraiId) {
        return Failure(ChatIdNotFound);
      }
      var completeChat := chats[chatId];
      var messagesForOpenai, messageId := BuildQuestionContext(completeChat.messages, completeChat.chatPrompt, question);
      var removes := regenerateResponse && MatchesThirdFromEnd(messagesForOpenai, question);
      var yielded, completeAnswer, finalId := RelayChunks(QuestionStream(removes, chatId), chunks, messageId);
      // after the loop, the removal guard's `[-3]` raises IndexError on a
      // list of two entries: the answer has been streamed, nothing is stored
      var raises := regenerateResponse && RemoveGuardAsWritten(messagesForOpenai, question).None?;
      if completes && !raises {
        CommitQuestionAnswer(samuraiId, chatId, question, removes, completeAnswer, finalId, rawTitle, now);
      }
      return Success(yielded);
    }

    /** What the question stream does once its loop has ended: compute the
        title when the final id is 0, pull the old pair when the removal
        guard holds, and insert the question and the answer. */
    method CommitQuestionAnswer(samuraiId: string, chatId: string, question: string, removes: bool,
                                completeAnswer: string, messageId: int, rawTitle: string, now: Timestamp)
      requires Valid()
      modifies this
      ensures Valid() && users == old(users)
      ensures OwnedChat(old(chats), samuraiId, chatId).None? ==> chats == old(chats)
      ensures OwnedChat(old(chats), samuraiId, chatId).Some? ==>
                chats == old(chats)[chatId := CommitAnswer(old(chats)[chatId], question, removes, completeAnswer,
                                                           messageId, rawTitle, now)]
    {
      var chatTitle := TitleFor(messageId, rawTitle);
      if removes {
        RemoveMessage(samuraiId, chatId, messageId + 2);
      }
      InsertMessage(samuraiId, chatId, [Turn(User, question), Turn(Assistant, completeAnswer)],
                    messageId, Text, None, chatTitle, now);
    }

    /** `gpt_audio_answer`: spend a query, check the file name and the
        transcript, find the chat, and store the question and answer links
        with their transcripts. */
    method GptAudioAnswer(samuraiId: string, chatId: string, fileName: string, transcript: Option<string>,
                          linkQuestion: string, answer: string, linkAnswer: string, rawTitle: string,
                          now: Timestamp)
      returns (r: Result<AudioReply, Error>)
      requires Valid() && samuraiId in users
      requires OwnedChat(chats, samuraiId, chatId).Some? ==> PopsSafe(0, chats[chatId].messages)
      modifies this
      ensures Valid()
      ensures QuotaGate(old(users[samuraiId].subscription)).Failure? ==>
                r == Failure(FreeQueriesUsed) && users == old(users) && chats == old(chats)
      ensures QuotaGate(old(users[samuraiId].subscription)).Success? ==>
                users == old(users)[samuraiId := UserDoc(QuotaGate(old(users[samuraiId].subscription)).value)]
      ensures QuotaGate(old(users[samuraiId].subscription)).Success? && !IsAudioFileName(fileName) ==>
                r == Failure(InvalidFileFormat) && chats == old(chats)
      ensures QuotaGate(old(users[samuraiId].subscription)).Success? && IsAudioFileName(fileName) &&
              transcript.None? ==>
                r == Failure(AudioNotClear) && chats == old(chats)
      ensures QuotaGate(old(users[samuraiId].subscription)).Success? && IsAudioFileName(fileName) &&
              transcript.Some? && OwnedChat(old(chats), samuraiId, chatId).None? ==>
                r == Failure(ChatIdNotFound) && chats == old(chats)
      ensures QuotaGate(old(users[samuraiId].subscription)).Success? && IsAudioFileName(fileName) &&
              transcript.Some? && OwnedChat(old(chats), samuraiId, chatId).Some? ==>
                r == Success(AudioReply(linkQuestion, transcript.value, linkAnswer, answer)) &&
                chats == old(chats)[chatId := AudioAnsweredChat(old(chats)[chatId], linkQuestion, transcript.value,
                                                                linkAnswer, answer, rawTitle, now)]
    {
      var gate := CheckAllQueriesUsed(samuraiId);
      if gate.Fail? {
        return Failure(gate.error);
      }
      if !IsAudioFileName(fileName) {
        return Failure(InvalidFileFormat);
      }
      if transcript.None? {
        return Failure(AudioNotClear);
      }
      var question := transcript.value;
      if !(chatId in chats && chats[chatId].owner == samuraiId) {
        return Failure(ChatIdNotFound);
      }
      var oldMessages := chats[chatId].messages;
      var messagesForOpenai, messageId := BuildQuestionContext(oldMessages, None, question);
      var chatTitle := TitleFor(messageId, rawTitle);
      InsertMessage(samuraiId, chatId, [Turn(User, linkQuestion), Turn(Assistant, linkAnswer)], messageId,
                    Audio, Some([question, answer]), chatTitle, now);
      return Success(AudioReply(linkQuestion, question, linkAnswer, answer));
    }

    /** `gpt_audio_answer_stream`: spend a query, check the file name, find
        the chat, store the question link before streaming, relay the
        stream, and store the answer after it has run to its end. */
    method GptAudioAnswerStream(samuraiId: string, chatId: string, fileName: string, question: string,
                                linkQuestion: string, chunks: seq<Chunk>, completes: bool, rawTitle: string,
                                now: Timestamp)
      returns (r: Result<seq<string>, Error>)
      requires Valid() && samuraiId in users
      requires OwnedChat(chats, samuraiId, chatId).Some? ==> PopsSafe(0, chats[chatId].messages)
      modifies this
      ensures Valid()
      ensures QuotaGate(old(users[samuraiId].subscription)).Failure? ==>
                r == Failure(FreeQueriesUsed) && users == old(users) && chats == old(chats)
      ensures QuotaGate(old(users[samuraiId].subscription)).Success? ==>
                users == old(users)[samuraiId := UserDoc(QuotaGate(old(users[samuraiId].subscription)).value)]
      ensures QuotaGate(old(users[samuraiId].subscription)).Success? && !IsAudioFileName(fileName) ==>
                r == Failure(InvalidFileFormat) && chats == old(chats)
      ensures QuotaGate(old(users[samuraiId].subscription)).Success? && IsAudioFileName(fileName) &&
              OwnedChat(old(chats), samuraiId, chatId).None? ==>
                r == Failure(ChatIdNotFound) && chats == old(chats)
      ensures QuotaGate(old(users[samuraiId].subscription)).Success? && IsAudioFileName(fileName) &&
              OwnedChat(old(chats), samuraiId, chatId).Some? ==>
                r == Success(RenderAll(Relay(AudioTextStream, chunks, LastId(old(chats)[chatId].messages)).emitted)) &&
                chats == old(chats)[chatId :=
                  if completes then AudioStreamAnswered(old(chats)[chatId], linkQuestion, question, chunks, rawTitle, now)
                  else AudioStreamAsked(old(chats)[chatId], linkQuestion, question, now)]
    {
      var gate := CheckAllQueriesUsed(samuraiId);
      if gate.Fail? {
        return Failure(gate.error);
      }
      if !IsAudioFileName(fileName) {
        return Failure(InvalidFileFormat);
      }
      if !(chatId in chats && chats[chatId].owner == samuraiId) {
        return Failure(ChatIdNotFound);
      }
      var oldMessages := chats[chatId].messages;
      var messagesForOpenai, messageId := BuildQuestionContext(oldMessages, None, question);
      var yielded := StoreAudioStream(samuraiId, chatId, question, linkQuestion, chunks, completes,
                                      messageId, rawTitle, now);
      return Success(yielded);
    }

    /** The audio-text handler once the chat is found: store the question
        link, relay the stream, and store the answer once the stream has run
        to its end. */
    method StoreAudioStream(samuraiId: string, chatId: string, question: string, linkQuestion: string,
                            chunks: seq<Chunk>, completes: bool, messageId: int, rawTitle: string,
                            now: Timestamp)
      returns (yielded: seq<string>)
      requires Valid() && OwnedChat(chats, samuraiId, chatId).Some?
      requires messageId == LastId(chats[chatId].messages)
      modifies this
      ensures Valid() && users == old(users)
      ensures yielded == RenderAll(Relay(AudioTextStream, chunks, messageId).emitted)
      ensures chats == old(chats)[chatId :=
                if completes then AudioStreamAnswered(old(chats)[chatId], linkQuestion, question, chunks, rawTitle, now)
                else AudioStreamAsked(old(chats)[chatId], linkQuestion, question, now)]
    {
      InsertMessage(samuraiId, chatId, [Turn(User, linkQuestion)], messageId, Audio, Some([question]), None, now);
      var completeAnswer, finalId;
      yielded, completeAnswer, finalId := RelayChunks(AudioTextStream, chunks, messageId);
      if completes {
        var chatTitle := TitleFor(messageId, rawTitle);
        InsertMessage(samuraiId, chatId, [Turn(Assistant, completeAnswer)], messageId + 1, Text, None, chatTitle, now);
      }
    }

    /** `image_generation`: spend a query, find the chat, store the question,
        then the image link, both inserted from the same base id. When image
        generation or the upload fails (`completes` false), only the question
        has been stored. */
    method ImageGeneration(samuraiId: string, chatId: string, question: string, link: string,
                           completes: bool, rawTitle: string, now: Timestamp)
      returns (r: Result<ImageReply, Error>)
      requires Valid() && samuraiId in users
      requires OwnedChat(chats, samuraiId, chatId).Some? ==> PopsSafe(0, chats[chatId].messages)
      modifies this
      ensures Valid()
      ensures QuotaGate(old(users[samuraiId].subscription)).Failure? ==>
                r == Failure(FreeQueriesUsed) && users == old(users) && chats == old(chats)
      ensures QuotaGate(old(users[samuraiId].subscription)).Success? ==>
                users == old(users)[samuraiId := UserDoc(QuotaGate(old(users[samuraiId].subscription)).value)]
      ensures QuotaGate(old(users[samuraiId].subscription)).Success? &&
              OwnedChat(old(chats), samuraiId, chatId).None? ==>
                r == Failure(ChatIdNotFound) && chats == old(chats)
      ensures QuotaGate(old(users[samuraiId].subscription)).Success? &&
              OwnedChat(old(chats), samuraiId, chatId).Some? ==>
                (completes ==>
                   r == Success(ImageReply(question, link)) &&
                   chats == old(chats)[chatId := ImagedChat(old(chats)[chatId], question, link, rawTitle, now)]) &&
                (!completes ==>
                   r == Failure(UpstreamFailed) &&
                   chats == old(chats)[chatId := ImageAsked(old(chats)[chatId], question, rawTitle, now)])
    {
      var gate := CheckAllQueriesUsed(samuraiId);
      if gate.Fail? {
        return Failure(gate.error);
      }
      if !(chatId in chats && chats[chatId].owner == samuraiId) {
        return Failure(ChatIdNotFound);
      }
      var oldMessages := chats[chatId].messages;
      var messagesForOpenai, messageId := BuildQuestionContext(oldMessages, None, question);
      var chatTitle := TitleFor(messageId, rawTitle);
      InsertMessage(samuraiId, chatId, [Turn(User, question)], messageId, Text, None, chatTitle, now);
      if !completes {
        return Failure(UpstreamFailed);
      }
      InsertMessage(samuraiId, chatId, [Turn(Assistant, link)], messageId, Image, None, chatTitle, now);
      return Success(ImageReply(question, link));
    }
  }
}
