/** The message log of one chat: the records `insert_message` appends and
    the pair `remove_message` pulls out. */
module MessageHistory {
  import opened ChatTypes

  /** `audio_text[i]` when transcripts are given, else no transcript. */
  function TranscriptAt(audioText: Option<seq<string>>, i: int): Option<string>
    requires audioText.Some? ==> 0 <= i < |audioText.value|
  {
    if audioText.Some? then Some(audioText.value[i]) else None
  }

  /** The record `insert_message` writes for one turn: `reaction` is None and
      `is_liked` is not written at all. */
  function NewRecord(t: Turn, id: int, messageType: MessageType, transcript: Option<string>, now: Timestamp): Message
  {
    Message(id, t.role, messageType, t.content, transcript, None, None, now, now)
  }

  /** The records for `turns`, numbered `base + 1`, `base + 2`, ... in order. */
  function NumberedRecords(turns: seq<Turn>, base: int, messageType: MessageType,
                           audioText: Option<seq<string>>, now: Timestamp): seq<Message>
    requires audioText.Some? ==> |audioText.value| >= |turns|
  {
    seq(|turns|, i requires 0 <= i < |turns| =>
      NewRecord(turns[i], base + i + 1, messageType, TranscriptAt(audioText, i), now))
  }

  /** A single turn becomes a single record numbered `base + 1`. */
  lemma OneRecord(t: Turn, base: int, messageType: MessageType, audioText: Option<seq<string>>, now: Timestamp)
    requires audioText.Some? ==> |audioText.value| >= 1
    ensures NumberedRecords([t], base, messageType, audioText, now)
            == [NewRecord(t, base + 1, messageType, if audioText.Some? then Some(audioText.value[0]) else None, now)]
  {
    var r := NumberedRecords([t], base, messageType, audioText, now);
    assert |r| == 1;
    assert r[0] == NewRecord(t, base + 1, messageType, TranscriptAt(audioText, 0), now);
  }

  /** The loop of `insert_message` that numbers the new records. */
  method BuildRecords(turns: seq<Turn>, base: int, messageType: MessageType,
                      audioText: Option<seq<string>>, now: Timestamp)
    returns (newMessages: seq<Message>)
    requires audioText.Some? ==> |audioText.value| >= |turns|
    ensures newMessages == NumberedRecords(turns, base, messageType, audioText, now)
  {
    newMessages := [];
    var messageId := base;
    for i := 0 to |turns|
      invariant messageId == base + i
      invariant |newMessages| == i
      invariant forall k :: 0 <= k < i ==>
                  newMessages[k] == NewRecord(turns[k], base + k + 1, messageType, TranscriptAt(audioText, k), now)
    {
      var transcript;
      if audioText.Some? {
        transcript := Some(audioText.value[i]);
      } else {
        transcript := None;
      }
      messageId := messageId + 1;
      newMessages := newMessages + [NewRecord(turns[i], messageId, messageType, transcript, now)];
    }
  }

  /** `$pull` of every message whose id is `k` or `k - 1`. */
  function WithoutPair(ms: seq<Message>, k: int): (r: seq<Message>)
    ensures |r| <= |ms|
    ensures forall m :: m in r <==> m in ms && m.messageId != k && m.messageId != k - 1
  {
    if ms == [] then []
    else (if ms[0].messageId == k || ms[0].messageId == k - 1 then [] else [ms[0]])
         + WithoutPair(ms[1..], k)
  }

  ghost predicate StrictlyIncreasing(ms: seq<Message>)
  {
    forall i, j :: 0 <= i < j < |ms| ==> ms[i].messageId < ms[j].messageId
  }

  // ---------------------------------------------------------------------
  // Properties

  /** Appending at the last stored id keeps ids strictly increasing, and the
      new records carry ids `base + 1 .. base + n`. */
  lemma AppendKeepsIncreasing(ms: seq<Message>, turns: seq<Turn>, base: int, messageType: MessageType,
                              audioText: Option<seq<string>>, now: Timestamp)
    requires audioText.Some? ==> |audioText.value| >= |turns|
    requires StrictlyIncreasing(ms) && (ms == [] || LastId(ms) <= base)
    ensures StrictlyIncreasing(ms + NumberedRecords(turns, base, messageType, audioText, now))
    ensures var r := ms + NumberedRecords(turns, base, messageType, audioText, now);
            forall i :: |ms| <= i < |r| ==> r[i].messageId == base + (i - |ms|) + 1
  {
    var r := ms + NumberedRecords(turns, base, messageType, audioText, now);
    forall i, j | 0 <= i < j < |r|
      ensures r[i].messageId < r[j].messageId
    {
      if j >= |ms| && i < |ms| {
        assert r[i].messageId <= ms[|ms| - 1].messageId;
      }
    }
  }

  /** Pulling preserves the order of what stays. */
  lemma {:induction false} WithoutPairAppend(a: seq<Message>, b: seq<Message>, k: int)
    ensures WithoutPair(a + b, k) == WithoutPair(a, k) + WithoutPair(b, k)
    decreases |a|
  {
    if a == [] {
      assert a + b == b;
    } else {
      assert (a + b)[1..] == a[1..] + b;
      WithoutPairAppend(a[1..], b, k);
    }
  }

  /** A history without ids `k` and `k - 1` is left exactly as it was. */
  lemma {:induction false} WithoutPairUntouched(ms: seq<Message>, k: int)
    requires forall j :: 0 <= j < |ms| ==> ms[j].messageId != k && ms[j].messageId != k - 1
    ensures WithoutPair(ms, k) == ms
    decreases |ms|
  {
    if ms != [] {
      WithoutPairUntouched(ms[1..], k);
    }
  }

  /** Pulling never breaks strictly increasing ids. */
  lemma {:induction false} WithoutPairKeepsIncreasing(ms: seq<Message>, k: int)
    requires StrictlyIncreasing(ms)
    ensures StrictlyIncreasing(WithoutPair(ms, k))
    decreases |ms|
  {
    if ms != [] {
      var rest := WithoutPair(ms[1..], k);
      WithoutPairKeepsIncreasing(ms[1..], k);
      forall j | 0 <= j < |rest|
        ensures ms[0].messageId < rest[j].messageId
      {
        assert rest[j] in ms[1..];
      }
    }
  }

  /** The part before `tail` of an increasing history is increasing and
      lies below the first id of `tail`. */
  lemma IncreasingPrefix(prefix: seq<Message>, tail: seq<Message>)
    requires tail != [] && StrictlyIncreasing(prefix + tail)
    ensures StrictlyIncreasing(prefix)
    ensures forall j :: 0 <= j < |prefix| ==> prefix[j].messageId < tail[0].messageId
  {
    var ms := prefix + tail;
    forall i, j | 0 <= i < j < |prefix|
      ensures prefix[i].messageId < prefix[j].messageId
    {
      assert ms[i] == prefix[i] && ms[j] == prefix[j];
    }
    forall j | 0 <= j < |prefix|
      ensures prefix[j].messageId < tail[0].messageId
    {
      assert ms[j] == prefix[j] && ms[|prefix|] == tail[0];
    }
  }

  /** Pulling the ids of the last pair of an increasing history leaves
      exactly the history before it. */
  lemma PullLastPair(prefix: seq<Message>, q: Message, a: Message, b: int)
    requires StrictlyIncreasing(prefix + [q, a])
    requires q.messageId == b + 1 && a.messageId == b + 2
    ensures WithoutPair(prefix + [q, a], b + 2) == prefix
    ensures StrictlyIncreasing(prefix) && (prefix == [] || LastId(prefix) <= b)
  {
    IncreasingPrefix(prefix, [q, a]);
    WithoutPairUntouched(prefix, b + 2);
    WithoutPairAppend(prefix, [q, a], b + 2);
    assert WithoutPair([q, a], b + 2) == [] by {
      assert [q, a][1..] == [a];
      assert [a][1..] == [];
    }
  }

  /** Regeneration replaces the last pair in place: pulling `{b + 1, b + 2}`
      and appending the new pair at base `b` reuses exactly those ids. */
  lemma RegenerateReplacesPair(prefix: seq<Message>, q: Message, a: Message, b: int,
                               question: Turn, answer: Turn, now: Timestamp)
    requires StrictlyIncreasing(prefix + [q, a])
    requires q.messageId == b + 1 && a.messageId == b + 2
    ensures WithoutPair(prefix + [q, a], b + 2) + NumberedRecords([question, answer], b, Text, None, now)
            == prefix + [NewRecord(question, b + 1, Text, None, now), NewRecord(answer, b + 2, Text, None, now)]
    ensures StrictlyIncreasing(WithoutPair(prefix + [q, a], b + 2) + NumberedRecords([question, answer], b, Text, None, now))
  {
    PullLastPair(prefix, q, a, b);
    assert NumberedRecords([question, answer], b, Text, None, now)
        == [NewRecord(question, b + 1, Text, None, now), NewRecord(answer, b + 2, Text, None, now)];
    AppendKeepsIncreasing(prefix, [question, answer], b, Text, None, now);
  }

  /** The image handler appends the question and the image reply at the same
      base, so both get id `b + 1` and ids stop being strictly increasing. */
  lemma ImagePathRepeatsId(ms: seq<Message>, question: Turn, reply: Turn, b: int, now: Timestamp)
    ensures var after := ms + NumberedRecords([question], b, Text, None, now)
                           + NumberedRecords([reply], b, Image, None, now);
            |after| == |ms| + 2 &&
            after[|ms|].messageId == b + 1 && after[|ms| + 1].messageId == b + 1 &&
            !StrictlyIncreasing(after)
  {
    var after := ms + NumberedRecords([question], b, Text, None, now)
                 + NumberedRecords([reply], b, Image, None, now);
    assert after[|ms|].messageId == b + 1 && after[|ms| + 1].messageId == b + 1;
  }
}
