/** Context assembly: how a chat's stored history becomes the prompt list
    sent upstream (`process_old_messages`), and how the question handler
    appends the new question to it. */
module ContextAssembly {
  import opened ChatTypes

  /** The entry a stored text or audio message contributes: its role, and
      its transcript for audio or its content otherwise. */
  function EntryOf(m: Message): PromptEntry
  {
    if m.messageType == Audio then PromptEntry(m.role, m.audioText)
    else PromptEntry(m.role, Some(m.content))
  }

  /** The optional system prompt that opens the list. */
  function Header(chatPrompt: Option<string>): seq<PromptEntry>
  {
    if chatPrompt.Some? then [PromptEntry(System, Some(chatPrompt.value))] else []
  }

  /** Walking `ms` from an output list of length `n` never pops an empty
      list (an image message pops the last entry). */
  predicate PopsSafe(n: int, ms: seq<Message>)
    decreases |ms|
  {
    ms == [] ||
    if ms[0].messageType == Image then n >= 1 && PopsSafe(n - 1, ms[1..])
    else PopsSafe(n + 1, ms[1..])
  }

  /** One iteration of the history loop. */
  function Step(acc: seq<PromptEntry>, m: Message): seq<PromptEntry>
    requires m.messageType == Image ==> acc != []
  {
    if m.messageType == Image then acc[..|acc| - 1] else acc + [EntryOf(m)]
  }

  /** The history loop run over `ms`, starting from `acc`. */
  function Fold(acc: seq<PromptEntry>, ms: seq<Message>): seq<PromptEntry>
    requires PopsSafe(|acc|, ms)
    decreases |ms|
  {
    if ms == [] then acc else Fold(Step(acc, ms[0]), ms[1..])
  }

  /** The prompt list built from a whole stored history. */
  function Assemble(chatPrompt: Option<string>, ms: seq<Message>): seq<PromptEntry>
    requires PopsSafe(|Header(chatPrompt)|, ms)
  {
    Fold(Header(chatPrompt), ms)
  }

  /** The entries of the non-image messages, in stored order: what the
      loop would produce if images removed nothing. */
  function Contributions(ms: seq<Message>): seq<PromptEntry>
  {
    if ms == [] then []
    else (if ms[0].messageType == Image then [] else [EntryOf(ms[0])]) + Contributions(ms[1..])
  }

  function ImageCount(ms: seq<Message>): nat
  {
    if ms == [] then 0
    else (if ms[0].messageType == Image then 1 else 0) + ImageCount(ms[1..])
  }

  /** `process_old_messages`: the optional system prompt, then every stored
      message in order (an image pops the previous entry), and the id of the
      last stored message. The whole history is walked: there is no window. */
  method ProcessOldMessages(oldMessages: seq<Message>, chatPrompt: Option<string>)
    returns (messagesForOpenai: seq<PromptEntry>, messageId: int)
    requires oldMessages != []
    requires PopsSafe(|Header(chatPrompt)|, oldMessages)
    ensures messagesForOpenai == Assemble(chatPrompt, oldMessages)
    ensures messageId == oldMessages[|oldMessages| - 1].messageId
  {
    messagesForOpenai := [];
    if chatPrompt.Some? {
      messagesForOpenai := messagesForOpenai + [PromptEntry(System, Some(chatPrompt.value))];
    }
    assert messagesForOpenai == Header(chatPrompt);
    assert oldMessages[0..] == oldMessages;
    var i := 0;
    while i < |oldMessages|
      invariant 0 <= i <= |oldMessages|
      invariant PopsSafe(|messagesForOpenai|, oldMessages[i..])
      invariant Fold(messagesForOpenai, oldMessages[i..]) == Assemble(chatPrompt, oldMessages)
    {
      var message := oldMessages[i];
      assert oldMessages[i..][1..] == oldMessages[i + 1..];
      i := i + 1;
      if message.messageType == Image {
        // the image reply takes the place of the question that asked for it
        messagesForOpenai := messagesForOpenai[..|messagesForOpenai| - 1];
      } else {
        var openaiMessage;
        if message.messageType == Audio {
          openaiMessage := PromptEntry(message.role, message.audioText);
        } else {
          openaiMessage := PromptEntry(message.role, Some(message.content));
        }
        messagesForOpenai := messagesForOpenai + [openaiMessage];
      }
    }
    messageId := oldMessages[|oldMessages| - 1].messageId;
  }

  /** The prompt list and base id the question handler builds: the assembled
      history followed by the new question, and the last stored id (0 for an
      empty chat). */
  function QuestionContext(history: seq<Message>, chatPrompt: Option<string>, question: string)
    : (seq<PromptEntry>, int)
    requires PopsSafe(|Header(chatPrompt)|, history)
  {
    (Assemble(chatPrompt, history) + [PromptEntry(User, Some(question))], LastId(history))
  }

  /** Lines building `messages_for_openai` and `message_id` in the question
      handler. The empty-history branch, written out separately in the
      handler, agrees with the general formula. The audio and image
      handlers call it with no chat prompt. */
  method BuildQuestionContext(history: seq<Message>, chatPrompt: Option<string>, question: string)
    returns (messagesForOpenai: seq<PromptEntry>, messageId: int)
    requires PopsSafe(|Header(chatPrompt)|, history)
    ensures (messagesForOpenai, messageId) == QuestionContext(history, chatPrompt, question)
    ensures |messagesForOpenai| >= 1
    ensures messagesForOpenai[|messagesForOpenai| - 1] == PromptEntry(User, Some(question))
  {
    var newMessage := PromptEntry(User, Some(question));
    if history != [] {
      messagesForOpenai, messageId := ProcessOldMessages(history, chatPrompt);
      messagesForOpenai := messagesForOpenai + [newMessage];
    } else if chatPrompt.Some? {
      assert Assemble(chatPrompt, history) + [newMessage]
          == [PromptEntry(System, Some(chatPrompt.value)), newMessage];
      messagesForOpenai, messageId := [PromptEntry(System, Some(chatPrompt.value)), newMessage], 0;
    } else {
      assert Assemble(chatPrompt, history) + [newMessage] == [newMessage];
      messagesForOpenai, messageId := [newMessage], 0;
    }
  }

  // ---------------------------------------------------------------------
  // Properties of the assembled list

  /** Safety only depends on how many entries there are to pop, and more
      entries never hurt. */
  lemma {:induction false} PopsSafeMonotone(n: int, k: nat, ms: seq<Message>)
    requires PopsSafe(n, ms)
    ensures PopsSafe(n + k, ms)
    decreases |ms|
  {
    if ms != [] {
      if ms[0].messageType == Image {
        PopsSafeMonotone(n - 1, k, ms[1..]);
      } else {
        PopsSafeMonotone(n + 1, k, ms[1..]);
      }
    }
  }

  /** Output length: one entry per non-image message plus the starting list,
      minus one per image. */
  lemma {:induction false} FoldLength(acc: seq<PromptEntry>, ms: seq<Message>)
    requires PopsSafe(|acc|, ms)
    ensures |Fold(acc, ms)| == |acc| + |Contributions(ms)| - ImageCount(ms)
    decreases |ms|
  {
    if ms != [] {
      FoldLength(Step(acc, ms[0]), ms[1..]);
    }
  }

  /** With the system prompt: |output| = 1 + #non-image - #image; without: #non-image - #image. */
  lemma AssembleLength(chatPrompt: Option<string>, ms: seq<Message>)
    requires PopsSafe(|Header(chatPrompt)|, ms)
    ensures |Assemble(chatPrompt, ms)|
            == (if chatPrompt.Some? then 1 else 0) + |Contributions(ms)| - ImageCount(ms)
  {
    FoldLength(Header(chatPrompt), ms);
  }

  /** With no image in the history, every message contributes exactly its
      entry, in stored order, after the starting list. */
  lemma {:induction false} FoldImageFree(acc: seq<PromptEntry>, ms: seq<Message>)
    requires ImageCount(ms) == 0
    ensures PopsSafe(|acc|, ms)
    ensures Fold(acc, ms) == acc + Contributions(ms)
    ensures |Contributions(ms)| == |ms|
    ensures forall i :: 0 <= i < |ms| ==> Contributions(ms)[i] == EntryOf(ms[i])
    decreases |ms|
  {
    if ms != [] {
      FoldImageFree(acc + [EntryOf(ms[0])], ms[1..]);
      assert Contributions(ms) == [EntryOf(ms[0])] + Contributions(ms[1..]);
      forall i | 0 <= i < |ms|
        ensures Contributions(ms)[i] == EntryOf(ms[i])
      {
        if i > 0 {
          assert ms[1..][i - 1] == ms[i];
        }
      }
    }
  }

  /** Shape of an image-free history: the system prompt (if any), then the
      text content or audio transcript of each message with its role. */
  lemma AssembleImageFree(chatPrompt: Option<string>, ms: seq<Message>)
    requires ImageCount(ms) == 0
    ensures PopsSafe(|Header(chatPrompt)|, ms)
    ensures |Assemble(chatPrompt, ms)| == |Header(chatPrompt)| + |ms|
    ensures chatPrompt.Some? ==> Assemble(chatPrompt, ms)[0] == PromptEntry(System, chatPrompt)
    ensures forall i :: 0 <= i < |ms| ==>
              var e := Assemble(chatPrompt, ms)[|Header(chatPrompt)| + i];
              e.role == ms[i].role &&
              e.content == (if ms[i].messageType == Audio then ms[i].audioText else Some(ms[i].content))
  {
    FoldImageFree(Header(chatPrompt), ms);
  }

  /** A starting prefix that no image reaches stays in front of the output. */
  lemma {:induction false} FoldKeepsPrefix(a: seq<PromptEntry>, b: seq<PromptEntry>, ms: seq<Message>)
    requires PopsSafe(|b|, ms)
    ensures PopsSafe(|a + b|, ms)
    ensures Fold(a + b, ms) == a + Fold(b, ms)
    decreases |ms|
  {
    PopsSafeMonotone(|b|, |a|, ms);
    if ms != [] {
      var m := ms[0];
      if m.messageType == Image {
        assert (a + b)[..|a + b| - 1] == a + b[..|b| - 1];
      } else {
        assert (a + b) + [EntryOf(m)] == a + (b + [EntryOf(m)]);
      }
      FoldKeepsPrefix(a, Step(b, m), ms[1..]);
    }
  }

  /** When the history never pops below its own entries, the list is the
      system prompt followed by what the history alone assembles to. */
  lemma PromptComesFirst(p: string, ms: seq<Message>)
    requires PopsSafe(0, ms)
    ensures PopsSafe(1, ms)
    ensures Assemble(Some(p), ms) == [PromptEntry(System, Some(p))] + Assemble(None, ms)
  {
    var sys := [PromptEntry(System, Some(p))];
    FoldKeepsPrefix(sys, [], ms);
    assert sys + [] == sys;
  }

  /** Every output entry is a starting entry or some non-image message's entry. */
  lemma {:induction false} FoldEntriesFrom(acc: seq<PromptEntry>, ms: seq<Message>)
    requires PopsSafe(|acc|, ms)
    ensures forall e :: e in Fold(acc, ms) ==> e in acc || e in Contributions(ms)
    decreases |ms|
  {
    if ms != [] {
      var m := ms[0];
      var acc' := Step(acc, m);
      FoldEntriesFrom(acc', ms[1..]);
      assert Contributions(ms) == (if m.messageType == Image then [] else [EntryOf(m)]) + Contributions(ms[1..]);
      forall e | e in acc'
        ensures e in acc || e in Contributions(ms)
      {
        if m.messageType == Image {
          assert e in acc[..|acc| - 1];
        }
      }
    }
  }

  lemma {:induction false} ContributionRoles(ms: seq<Message>)
    ensures forall e :: e in Contributions(ms) ==> exists j :: 0 <= j < |ms| && e.role == ms[j].role
    decreases |ms|
  {
    if ms != [] {
      ContributionRoles(ms[1..]);
      forall e | e in Contributions(ms)
        ensures exists j :: 0 <= j < |ms| && e.role == ms[j].role
      {
        if e in Contributions(ms[1..]) {
          var j :| 0 <= j < |ms[1..]| && e.role == ms[1..][j].role;
          assert ms[j + 1] == ms[1..][j];
        } else {
          assert e.role == ms[0].role;
        }
      }
    }
  }

  /** The list holds a system entry exactly when a chat prompt is given
      (stored messages are user or assistant turns, and no image reaches
      the prompt). */
  lemma SystemEntryIffPrompt(chatPrompt: Option<string>, ms: seq<Message>)
    requires PopsSafe(0, ms)
    requires forall j :: 0 <= j < |ms| ==> ms[j].role != System
    ensures PopsSafe(|Header(chatPrompt)|, ms)
    ensures chatPrompt.Some? ==>
              |Assemble(chatPrompt, ms)| > 0 && Assemble(chatPrompt, ms)[0] == PromptEntry(System, chatPrompt)
    ensures chatPrompt.None? ==> forall e :: e in Assemble(chatPrompt, ms) ==> e.role != System
  {
    if chatPrompt.Some? {
      PromptComesFirst(chatPrompt.value, ms);
    } else {
      FoldEntriesFrom([], ms);
      ContributionRoles(ms);
    }
  }

  /** Running the loop over `a + b` is running it over `a`, then over `b`. */
  lemma {:induction false} FoldAppend(acc: seq<PromptEntry>, a: seq<Message>, b: seq<Message>)
    requires PopsSafe(|acc|, a)
    requires PopsSafe(|Fold(acc, a)|, b)
    ensures PopsSafe(|acc|, a + b)
    ensures Fold(acc, a + b) == Fold(Fold(acc, a), b)
    decreases |a|
  {
    if a == [] {
      assert a + b == b;
    } else {
      assert (a + b)[1..] == a[1..] + b;
      FoldAppend(Step(acc, a[0]), a[1..], b);
    }
  }

  /** A question answered by an image contributes nothing: the image pops
      the question's entry. */
  lemma ImageDropsQuestion(acc: seq<PromptEntry>, ms: seq<Message>, question: Message, image: Message)
    requires PopsSafe(|acc|, ms)
    requires question.messageType != Image && image.messageType == Image
    ensures PopsSafe(|acc|, ms + [question, image])
    ensures Fold(acc, ms + [question, image]) == Fold(acc, ms)
  {
    var before := Fold(acc, ms);
    assert [question, image][1..] == [image];
    assert (before + [EntryOf(question)])[..|before|] == before;
    assert Fold(before + [EntryOf(question)], [image]) == before;
    assert Fold(before, [question, image]) == Fold(before + [EntryOf(question)], [image]);
    FoldAppend(acc, ms, [question, image]);
  }

  /** An image at the head of the history pops the system prompt itself. */
  lemma ImagePopsPrompt(p: string, image: Message)
    requires image.messageType == Image
    ensures PopsSafe(1, [image]) && !PopsSafe(0, [image])
    ensures Assemble(Some(p), [image]) == []
  {
    assert [image][1..] == [];
    assert Fold([PromptEntry(System, Some(p))], [image]) == Fold([], []);
  }
}
