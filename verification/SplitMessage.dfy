/**
 Splitting a long message at a separator into messages of bounded length (src/lib/util/splitMessage.ts), for a
 string separator and nothing prepended or appended.
 */
module SplitMessage {
  import opened Banks
  import opened Text

  function Flatten(groups: seq<seq<string>>): seq<string> {
    if groups == [] then [] else Flatten(groups[..|groups| - 1]) + groups[|groups| - 1]
  }

  lemma FlattenMore(groups: seq<seq<string>>, group: seq<string>)
    ensures Flatten(groups + [group]) == Flatten(groups) + group
  {
    assert (groups + [group])[..|groups|] == groups;
  }

  // ---------- The fewest messages ----------

  /** How many messages the rest of the chunks needs when the current message is `cur` long. */
  function Needed(cur: nat, chunks: seq<string>, sep: string, maxLength: int): nat
    decreases |chunks|
  {
    if chunks == [] then (if cur > 0 then 1 else 0)
    else
      var c := |chunks[0]|;
      if cur > 0 && cur + |sep| + c > maxLength then 1 + Needed(c, chunks[1..], sep, maxLength)
      else Needed(if cur > 0 then cur + |sep| + c else c, chunks[1..], sep, maxLength)
  }

  /** A longer current message needs as many more messages or one more, never two. */
  lemma {:induction false} NeededMonotone(a: nat, b: nat, chunks: seq<string>, sep: string, maxLength: int)
    requires a <= b
    ensures Needed(a, chunks, sep, maxLength) <= Needed(b, chunks, sep, maxLength) <=
            1 + Needed(a, chunks, sep, maxLength)
    decreases |chunks|
  {
    if chunks != [] {
      var c, rest := |chunks[0]|, chunks[1..];
      var a', b' := if a > 0 then a + |sep| + c else c, if b > 0 then b + |sep| + c else c;
      NeededMonotone(a', b', rest, sep, maxLength);
      NeededMonotone(c, a', rest, sep, maxLength);
      NeededMonotone(c, b', rest, sep, maxLength);
    }
  }

  /** One group that fits in a message costs at most one message. */
  lemma {:induction false} GroupNeeds(cur: nat, group: seq<string>, before: seq<string>, rest: seq<string>,
                                      sep: string, maxLength: int)
    requires if before == [] then cur == 0 else cur <= |Join(before, sep)|
    requires |Join(before + group, sep)| <= maxLength
    ensures Needed(cur, group + rest, sep, maxLength) <= 1 + Needed(0, rest, sep, maxLength)
    decreases |group|
  {
    if group == [] {
      NeededMonotone(0, cur, rest, sep, maxLength);
      assert group + rest == rest;
    } else {
      var c, tail := group[0], group[1..];
      assert before + group == (before + [c]) + tail;
      assert (group + rest)[1..] == tail + rest;
      if before != [] {
        JoinMore(before, sep, c);
      }
      JoinPrefix(before + [c], tail, sep);
      var next := if cur > 0 then cur + |sep| + |c| else |c|;
      GroupNeeds(next, tail, before + [c], rest, sep, maxLength);
    }
  }

  lemma {:induction false} JoinPrefix(a: seq<string>, b: seq<string>, sep: string)
    ensures |Join(a, sep)| <= |Join(a + b, sep)|
  {
    if |a| > 0 && b != [] {
      assert (a + b)[1..] == a[1..] + b;
      JoinPrefix(a[1..], b, sep);
    } else if b == [] {
      assert a + b == a;
    }
  }

  /** The greedy count is the least: no grouping of the chunks into messages that fit uses fewer. */
  lemma {:induction false} NeededIsLeast(chunks: seq<string>, sep: string, maxLength: int, groups: seq<seq<string>>,
                                         rest: seq<string>)
    requires Flatten(groups) + rest == chunks
    requires forall g :: g in groups ==> |Join(g, sep)| <= maxLength
    ensures Needed(0, chunks, sep, maxLength) <= |groups| + Needed(0, rest, sep, maxLength)
  {
    if groups == [] {
      assert chunks == rest;
    } else {
      var n := |groups| - 1;
      NeededIsLeast(chunks, sep, maxLength, groups[..n], groups[n] + rest);
      assert [] + groups[n] == groups[n];
      GroupNeeds(0, groups[n], [], rest, sep, maxLength);
    }
  }

  // ---------- Lost chunks ----------

  /** How many of the chunks are empty and come while no message is being built: nothing records them. */
  function Skipped(cur: nat, chunks: seq<string>, sep: string, maxLength: int): nat
    decreases |chunks|
  {
    if chunks == [] then 0
    else
      var c := |chunks[0]|;
      var starts := cur == 0 || cur + |sep| + c > maxLength;
      (if starts && c == 0 then 1 else 0) + Skipped(if starts then c else cur + |sep| + c, chunks[1..], sep, maxLength)
  }

  lemma {:induction false} NoEmptyNoneSkipped(cur: nat, chunks: seq<string>, sep: string, maxLength: int)
    requires "" !in chunks
    ensures Skipped(cur, chunks, sep, maxLength) == 0
    decreases |chunks|
  {
    if chunks != [] {
      var c := |chunks[0]|;
      assert chunks[0] in chunks;
      var starts := cur == 0 || cur + |sep| + c > maxLength;
      NoEmptyNoneSkipped(if starts then c else cur + |sep| + c, chunks[1..], sep, maxLength);
    }
  }

  lemma {:induction false} SkippedAtMost(cur: nat, chunks: seq<string>, sep: string, maxLength: int)
    ensures Skipped(cur, chunks, sep, maxLength) <= |chunks|
    decreases |chunks|
  {
    if chunks != [] {
      var c := |chunks[0]|;
      var starts := cur == 0 || cur + |sep| + c > maxLength;
      SkippedAtMost(if starts then c else cur + |sep| + c, chunks[1..], sep, maxLength);
    }
  }

  /** How many chunks a split loses: none when the text fits in one message. */
  function Lost(text: string, sep: string, maxLength: int): (n: nat)
    ensures n <= |Split(text, sep)|
  {
    SkippedAtMost(0, Split(text, sep), sep, maxLength);
    if |text| <= maxLength then 0 else Skipped(0, Split(text, sep), sep, maxLength)
  }

  // ---------- The packing loop ----------

  /** These groups hold so many of the chunks, in order, and miss only empty ones. */
  ghost predicate Holds(groups: seq<seq<string>>, chunks: seq<string>, kept: nat) {
    && NonEmpty(Flatten(groups)) == NonEmpty(chunks)
    && |Flatten(groups)| == kept <= |chunks|
    && (kept == |chunks| ==> Flatten(groups) == chunks)
  }

  /** The messages are groups of the chunks, each joined by the separator, not empty, and within the limit. */
  ghost predicate Joined(sep: string, maxLength: int, groups: seq<seq<string>>, messages: seq<string>) {
    && |groups| == |messages|
    && forall k :: 0 <= k < |messages| ==>
                     messages[k] == Join(groups[k], sep) && 0 < |messages[k]| <= maxLength && groups[k] != []
  }

  ghost predicate Packing(chunks: seq<string>, sep: string, maxLength: int, groups: seq<seq<string>>,
                          messages: seq<string>, kept: nat)
  {
    Joined(sep, maxLength, groups, messages) && Holds(groups, chunks, kept)
  }

  ghost predicate Packs(chunks: seq<string>, sep: string, maxLength: int, messages: seq<string>, kept: nat) {
    exists groups :: Packing(chunks, sep, maxLength, groups, messages, kept)
  }

  /** The k-th message could not have taken the chunk that the next one begins with. */
  ghost predicate IsFull(sep: string, maxLength: int, groups: seq<seq<string>>, messages: seq<string>, k: nat)
    requires k < |messages| && k + 1 < |groups|
  {
    |messages[k]| + |sep| + (if groups[k + 1] == [] then 0 else |groups[k + 1][0]|) > maxLength
  }

  /** No message begins with an empty chunk, and all but the last are full. */
  ghost predicate Filled(sep: string, maxLength: int, groups: seq<seq<string>>, messages: seq<string>) {
    && (forall k :: 0 <= k < |groups| && groups[k] != [] ==> groups[k][0] != "")
    && (forall k :: 0 <= k < |messages| && k < |groups| - 1 ==> IsFull(sep, maxLength, groups, messages, k))
  }

  /** The chunks are packed one after the other, each message filled before the next is begun. */
  ghost predicate PacksFull(chunks: seq<string>, sep: string, maxLength: int, messages: seq<string>, kept: nat) {
    exists groups :: Packing(chunks, sep, maxLength, groups, messages, kept) && Filled(sep, maxLength, groups, messages)
  }

  /** What the packing loop has built after the first chunks: finished messages, the one being built, and how many
      chunks these hold. */
  datatype Packer = Packer(messages: seq<string>, msg: string, kept: nat)

  /** The state of the packing loop: full messages with their groups, and the message being built. */
  ghost predicate Building(chunks: seq<string>, sep: string, maxLength: int, groups: seq<seq<string>>,
                           group: seq<string>, p: Packer)
  {
    && Joined(sep, maxLength, groups, p.messages)
    && p.msg == Join(group, sep) && (p.msg != "" ==> |p.msg| <= maxLength) && (p.msg == "" <==> group == [])
    && Holds(groups + [group], chunks, p.kept)
  }

  lemma HoldsMore(groups: seq<seq<string>>, group: seq<string>, chunks: seq<string>, kept: nat, chunk: string)
    requires Holds(groups + [group], chunks, kept)
    ensures Holds(groups + [group + [chunk]], chunks + [chunk], kept + 1)
  {
    FlattenMore(groups, group);
    FlattenMore(groups, group + [chunk]);
    assert Flatten(groups) + (group + [chunk]) == Flatten(groups) + group + [chunk];
    NonEmptyMore(chunks, chunk);
    NonEmptyMore(Flatten(groups) + group, chunk);
  }

  lemma HoldsEmpty(groups: seq<seq<string>>, chunks: seq<string>, kept: nat)
    requires Holds(groups, chunks, kept)
    ensures Holds(groups, chunks + [""], kept)
  {
    NonEmptyMore(chunks, "");
  }

  predicate Overflows(p: Packer, chunk: string, sep: string, maxLength: int) {
    p.msg != "" && |p.msg + sep + chunk| > maxLength
  }

  /** Adding a chunk that fits to the message being built. */
  function Extended(p: Packer, chunk: string, sep: string): Packer {
    Packer(p.messages, p.msg + (if p.msg != "" then sep else "") + chunk,
           if p.msg == "" && chunk == "" then p.kept else p.kept + 1)
  }

  function Turn(p: Packer, chunk: string, sep: string, maxLength: int): Packer {
    Extended(if Overflows(p, chunk, sep, maxLength) then Packer(p.messages + [p.msg], "", p.kept) else p, chunk, sep)
  }

  function Finish(p: Packer): seq<string> {
    if p.msg != "" then p.messages + [p.msg] else p.messages
  }

  lemma Grow(chunks: seq<string>, sep: string, maxLength: int, groups: seq<seq<string>>, group: seq<string>, p: Packer,
             chunk: string)
    requires Building(chunks, sep, maxLength, groups, group, p)
    requires |chunk| <= maxLength && !Overflows(p, chunk, sep, maxLength)
    ensures Building(chunks + [chunk], sep, maxLength, groups,
                     if p.msg == "" && chunk == "" then [] else group + [chunk], Extended(p, chunk, sep))
  {
    if group != [] {
      JoinMore(group, sep, chunk);
    }
    if p.msg != "" || chunk != "" {
      HoldsMore(groups, group, chunks, p.kept, chunk);
    } else {
      HoldsEmpty(groups + [[]], chunks, p.kept);
    }
  }

  lemma Flush(chunks: seq<string>, sep: string, maxLength: int, groups: seq<seq<string>>, group: seq<string>, p: Packer)
    requires Building(chunks, sep, maxLength, groups, group, p) && p.msg != ""
    ensures Building(chunks, sep, maxLength, groups + [group], [], Packer(p.messages + [p.msg], "", p.kept))
  {
    FlattenMore(groups + [group], []);
    assert Flatten(groups + [group]) + [] == Flatten(groups + [group]);
  }

  lemma Done(chunks: seq<string>, sep: string, maxLength: int, groups: seq<seq<string>>, p: Packer)
    requires Building(chunks, sep, maxLength, groups, [], p) && p.msg == ""
    ensures Packing(chunks, sep, maxLength, groups, p.messages, p.kept)
  {
    FlattenMore(groups, []);
    assert Flatten(groups) + [] == Flatten(groups);
  }

  ghost predicate Built(chunks: seq<string>, sep: string, maxLength: int, p: Packer) {
    exists groups, group :: Building(chunks, sep, maxLength, groups, group, p) &&
                            Filled(sep, maxLength, groups + [group], p.messages)
  }

  lemma GrowFilled(sep: string, maxLength: int, groups: seq<seq<string>>, group: seq<string>, p: Packer, chunk: string)
    requires |groups| == |p.messages| && Filled(sep, maxLength, groups + [group], p.messages)
    requires p.msg == "" <==> group == []
    ensures Filled(sep, maxLength, groups + [if p.msg == "" && chunk == "" then [] else group + [chunk]], p.messages)
  {
    var before := groups + [group];
    var after := groups + [if p.msg == "" && chunk == "" then [] else group + [chunk]];
    forall k | 0 <= k < |after| && after[k] != [] ensures after[k][0] != ""
    {
      assert before[k] != [] ==> before[k][0] != "";
    }
    forall k | 0 <= k < |p.messages| ensures IsFull(sep, maxLength, after, p.messages, k)
    {
      assert IsFull(sep, maxLength, before, p.messages, k);
    }
  }

  lemma FlushFilled(sep: string, maxLength: int, groups: seq<seq<string>>, group: seq<string>, p: Packer, chunk: string)
    requires |groups| == |p.messages| && Filled(sep, maxLength, groups + [group], p.messages)
    requires Overflows(p, chunk, sep, maxLength)
    ensures Filled(sep, maxLength, groups + [group] + [if chunk == "" then [] else [chunk]], p.messages + [p.msg])
  {
    var before, after := groups + [group], groups + [group] + [if chunk == "" then [] else [chunk]];
    forall k | 0 <= k < |p.messages| + 1 ensures IsFull(sep, maxLength, after, p.messages + [p.msg], k)
    {
      if k < |p.messages| {
        assert IsFull(sep, maxLength, before, p.messages, k);
      }
    }
  }

  lemma BuiltTurn(chunks: seq<string>, sep: string, maxLength: int, p: Packer, chunk: string)
    requires Built(chunks, sep, maxLength, p) && |chunk| <= maxLength
    ensures Built(chunks + [chunk], sep, maxLength, Turn(p, chunk, sep, maxLength))
  {
    var groups, group :| Building(chunks, sep, maxLength, groups, group, p) &&
                         Filled(sep, maxLength, groups + [group], p.messages);
    if Overflows(p, chunk, sep, maxLength) {
      FlushTurn(chunks, sep, maxLength, groups, group, p, chunk);
    } else {
      Grow(chunks, sep, maxLength, groups, group, p, chunk);
      GrowFilled(sep, maxLength, groups, group, p, chunk);
    }
  }

  lemma FlushTurn(chunks: seq<string>, sep: string, maxLength: int, groups: seq<seq<string>>, group: seq<string>,
                  p: Packer, chunk: string)
    requires Building(chunks, sep, maxLength, groups, group, p)
    requires Filled(sep, maxLength, groups + [group], p.messages)
    requires |chunk| <= maxLength && Overflows(p, chunk, sep, maxLength)
    ensures Built(chunks + [chunk], sep, maxLength, Turn(p, chunk, sep, maxLength))
  {
    Flush(chunks, sep, maxLength, groups, group, p);
    var flushed := Packer(p.messages + [p.msg], "", p.kept);
    Grow(chunks, sep, maxLength, groups + [group], [], flushed, chunk);
    FlushFilled(sep, maxLength, groups, group, p, chunk);
    assert [] + [chunk] == [chunk];
  }

  /** The loop's progress: what is built, what is still needed, and what was and will be skipped. */
  ghost predicate Reached(chunks: seq<string>, i: nat, sep: string, maxLength: int, p: Packer)
    requires i <= |chunks|
  {
    && Built(chunks[..i], sep, maxLength, p)
    && |p.messages| + Needed(|p.msg|, chunks[i..], sep, maxLength) == Needed(0, chunks, sep, maxLength)
    && i - p.kept + Skipped(|p.msg|, chunks[i..], sep, maxLength) == Skipped(0, chunks, sep, maxLength)
  }

  lemma CountsTurn(chunks: seq<string>, i: nat, sep: string, maxLength: int, p: Packer)
    requires i < |chunks|
    ensures var q := Turn(p, chunks[i], sep, maxLength);
            && |p.messages| + Needed(|p.msg|, chunks[i..], sep, maxLength) ==
               |q.messages| + Needed(|q.msg|, chunks[i + 1..], sep, maxLength)
            && i - p.kept + Skipped(|p.msg|, chunks[i..], sep, maxLength) ==
               i + 1 - q.kept + Skipped(|q.msg|, chunks[i + 1..], sep, maxLength)
  {
    assert chunks[i..][1..] == chunks[i + 1..];
  }

  lemma ReachedTurn(chunks: seq<string>, i: nat, sep: string, maxLength: int, p: Packer)
    requires i < |chunks| && Reached(chunks, i, sep, maxLength, p) && |chunks[i]| <= maxLength
    ensures Reached(chunks, i + 1, sep, maxLength, Turn(p, chunks[i], sep, maxLength))
  {
    assert chunks[..i + 1] == chunks[..i] + [chunks[i]];
    BuiltTurn(chunks[..i], sep, maxLength, p, chunks[i]);
    CountsTurn(chunks, i, sep, maxLength, p);
  }

  lemma ReachedEnd(chunks: seq<string>, sep: string, maxLength: int, p: Packer)
    requires Reached(chunks, |chunks|, sep, maxLength, p)
    ensures p.kept == |chunks| - Skipped(0, chunks, sep, maxLength)
    ensures PacksFull(chunks, sep, maxLength, Finish(p), p.kept)
    ensures |Finish(p)| == Needed(0, chunks, sep, maxLength)
  {
    assert chunks[..|chunks|] == chunks && chunks[|chunks|..] == [];
    var groups, group :| Building(chunks, sep, maxLength, groups, group, p) &&
                         Filled(sep, maxLength, groups + [group], p.messages);
    if p.msg != "" {
      Flush(chunks, sep, maxLength, groups, group, p);
      Done(chunks, sep, maxLength, groups + [group], Packer(p.messages + [p.msg], "", p.kept));
      StillFilled(sep, maxLength, groups + [group], groups + [group], p.messages, p.messages + [p.msg]);
    } else {
      Done(chunks, sep, maxLength, groups, p);
      StillFilled(sep, maxLength, groups + [group], groups, p.messages, p.messages);
    }
  }

  lemma StillFilled(sep: string, maxLength: int, groups: seq<seq<string>>, fewer: seq<seq<string>>,
                    messages: seq<string>, more: seq<string>)
    requires Filled(sep, maxLength, groups, messages) && |groups| == |messages| + 1
    requires fewer <= groups && messages <= more
    ensures Filled(sep, maxLength, fewer, more)
  {
    forall k | 0 <= k < |more| && k < |fewer| - 1 ensures IsFull(sep, maxLength, fewer, more, k)
    {
      assert IsFull(sep, maxLength, groups, messages, k);
    }
  }

  lemma ReachedStart(chunks: seq<string>, sep: string, maxLength: int)
    ensures Reached(chunks, 0, sep, maxLength, Packer([], "", 0))
  {
    var none: seq<seq<string>> := [];
    FlattenMore(none, []);
    assert none + [[]] == [[]];
    assert chunks[..0] == [] && chunks[0..] == chunks;
    assert Building([], sep, maxLength, none, [], Packer([], "", 0));
    assert Filled(sep, maxLength, none + [[]], []);
  }

  predicate AllFit(chunks: seq<string>, maxLength: int) {
    forall c :: c in chunks ==> |c| <= maxLength
  }

  /** One turn of the loop: the message being built is finished if the chunk would overflow it. */
  method PackChunk(splitText: seq<string>, i: nat, sep: string, maxLength: int, messages: seq<string>, msg: string,
                   ghost kept: nat)
    returns (newMessages: seq<string>, newMsg: string, ghost newKept: nat)
    requires AllFit(splitText, maxLength) && i < |splitText|
    requires Reached(splitText, i, sep, maxLength, Packer(messages, msg, kept))
    ensures Reached(splitText, i + 1, sep, maxLength, Packer(newMessages, newMsg, newKept))
  {
    var chunk := splitText[i];
    ghost var before := Packer(messages, msg, kept);
    newMessages, newMsg := messages, msg;
    if newMsg != "" && |newMsg + sep + chunk| > maxLength {
      newMessages := newMessages + [newMsg];
      newMsg := "";
    }
    newKept := if newMsg == "" && chunk == "" then kept else kept + 1;
    newMsg := newMsg + (if newMsg != "" then sep else "") + chunk;
    ReachedTo(splitText, i, sep, maxLength, before, Packer(newMessages, newMsg, newKept));
  }

  lemma ReachedTo(chunks: seq<string>, i: nat, sep: string, maxLength: int, p: Packer, q: Packer)
    requires AllFit(chunks, maxLength) && i < |chunks| && Reached(chunks, i, sep, maxLength, p)
    requires q == Turn(p, chunks[i], sep, maxLength)
    ensures Reached(chunks, i + 1, sep, maxLength, q)
  {
    ReachedTurn(chunks, i, sep, maxLength, p);
  }

  /** What the packing loop delivers: nothing but empty chunks is missed, every message but the last is full, and no
      message too many is used. */
  ghost predicate PackedBest(chunks: seq<string>, sep: string, maxLength: int, messages: seq<string>) {
    && Skipped(0, chunks, sep, maxLength) <= |chunks|
    && PacksFull(chunks, sep, maxLength, messages, |chunks| - Skipped(0, chunks, sep, maxLength))
    && |messages| == Needed(0, chunks, sep, maxLength)
  }

  lemma ReachedBest(chunks: seq<string>, sep: string, maxLength: int, p: Packer)
    requires Reached(chunks, |chunks|, sep, maxLength, p)
    ensures PackedBest(chunks, sep, maxLength, Finish(p))
  {
    ReachedEnd(chunks, sep, maxLength, p);
  }

  /** The packing loop. */
  method Pack(splitText: seq<string>, sep: string, maxLength: int) returns (messages: seq<string>)
    requires AllFit(splitText, maxLength)
    ensures PackedBest(splitText, sep, maxLength, messages)
  {
    var msg := "";
    messages := [];
    ghost var kept := 0;
    ReachedStart(splitText, sep, maxLength);
    for i := 0 to |splitText|
      invariant Reached(splitText, i, sep, maxLength, Packer(messages, msg, kept))
    {
      messages, msg, kept := PackChunk(splitText, i, sep, maxLength, messages, msg, kept);
    }
    ReachedBest(splitText, sep, maxLength, Packer(messages, msg, kept));
    if msg != "" {
      messages := messages + [msg];
    }
  }

  /** What a split delivers: all but the lost chunks, in as few messages as any grouping needs. */
  ghost predicate SplitBest(text: string, sep: string, maxLength: int, messages: seq<string>) {
    && Packs(Split(text, sep), sep, maxLength, messages, |Split(text, sep)| - Lost(text, sep, maxLength))
    && |messages| == if |text| <= maxLength then 1 else Needed(0, Split(text, sep), sep, maxLength)
  }

  lemma OneGroup(chunks: seq<string>, sep: string, maxLength: int)
    requires chunks != [] && 0 < |Join(chunks, sep)| <= maxLength
    ensures Packs(chunks, sep, maxLength, [Join(chunks, sep)], |chunks|)
  {
    FlattenMore([], chunks);
    assert [] + [chunks] == [chunks] && [] + chunks == chunks;
    assert Packing(chunks, sep, maxLength, [chunks], [Join(chunks, sep)], |chunks|);
  }

  lemma OneMessage(text: string, sep: string, maxLength: int)
    requires 0 < |text| <= maxLength
    ensures SplitBest(text, sep, maxLength, [text])
  {
    JoinSplit(text, sep);
    OneGroup(Split(text, sep), sep, maxLength);
    assert Lost(text, sep, maxLength) == 0;
  }

  lemma ManyMessages(text: string, sep: string, maxLength: int, messages: seq<string>)
    requires |text| > maxLength && PackedBest(Split(text, sep), sep, maxLength, messages)
    ensures SplitBest(text, sep, maxLength, messages)
  {
  }

  /** The messages, or none when a chunk is too long on its own. */
  method SplitMessage(text: string, sep: string, maxLength: int) returns (r: Option<seq<string>>)
    ensures r.Some? <==> |text| <= maxLength || forall c :: c in Split(text, sep) ==> |c| <= maxLength
    ensures |text| <= maxLength ==> r == Some([text])
    ensures r.Some? && text != "" ==> SplitBest(text, sep, maxLength, r.value)
    ensures r.Some? && |text| > maxLength ==> PackedBest(Split(text, sep), sep, maxLength, r.value)
  {
    if |text| <= maxLength {
      if text != "" {
        OneMessage(text, sep, maxLength);
      }
      return Some([text]);
    }
    var splitText := Split(text, sep);
    if !AllFit(splitText, maxLength) {
      return None;
    }
    var messages := Pack(splitText, sep, maxLength);
    ManyMessages(text, sep, maxLength, messages);
    return Some(messages);
  }

  // ---------- What splitting guarantees ----------

  lemma {:induction false} JoinGroups(groups: seq<seq<string>>, messages: seq<string>, sep: string)
    requires |groups| == |messages|
    requires forall k :: 0 <= k < |groups| ==> messages[k] == Join(groups[k], sep) && groups[k] != []
    ensures Join(messages, sep) == Join(Flatten(groups), sep)
    ensures groups != [] ==> Flatten(groups) != []
  {
    if groups != [] {
      var n := |groups| - 1;
      JoinGroups(groups[..n], messages[..n], sep);
      assert messages == messages[..n] + [messages[n]];
      if n == 0 {
        assert Flatten(groups) == [] + groups[0] == groups[0];
      } else {
        JoinMore(messages[..n], sep, messages[n]);
        JoinConcat(Flatten(groups[..n]), groups[n], sep);
      }
    }
  }

  lemma {:induction false} JoinConcat(a: seq<string>, b: seq<string>, sep: string)
    requires a != [] && b != []
    ensures Join(a + b, sep) == Join(a, sep) + sep + Join(b, sep)
  {
    assert (a + b)[1..] == a[1..] + b;
    if |a| > 1 {
      JoinConcat(a[1..], b, sep);
    }
  }

  function Length(chunks: seq<string>): nat {
    if chunks == [] then 0 else Length(chunks[..|chunks| - 1]) + |chunks[|chunks| - 1]|
  }

  lemma {:induction false} EmptyAddsNothing(chunks: seq<string>)
    ensures Length(NonEmpty(chunks)) == Length(chunks)
  {
    if chunks != [] {
      var n := |chunks| - 1;
      var held := NonEmpty(chunks[..n]);
      EmptyAddsNothing(chunks[..n]);
      assert held + [] == held;
      assert (held + [chunks[n]])[..|held|] == held;
    }
  }

  function Separators(n: nat, sep: string): nat {
    if n <= 1 then 0 else Separators(n - 1, sep) + |sep|
  }

  lemma {:induction false} JoinLength(chunks: seq<string>, sep: string)
    ensures |Join(chunks, sep)| == Length(chunks) + Separators(|chunks|, sep)
  {
    if |chunks| == 1 {
      assert chunks[..0] == [];
    } else if chunks != [] {
      var n := |chunks| - 1;
      JoinLength(chunks[..n], sep);
      JoinMore(chunks[..n], sep, chunks[n]);
      assert chunks == chunks[..n] + [chunks[n]];
    }
  }

  lemma {:induction false} SeparatorsGrow(k: nat, n: nat, sep: string)
    requires 0 < k < n && sep != ""
    ensures Separators(k, sep) < Separators(n, sep)
  {
    if k + 1 < n {
      SeparatorsGrow(k, n - 1, sep);
    }
  }

  lemma LettersNotEmpty(text: string)
    ensures "" !in Split(text, "")
  {
  }

  /** Chunks with fewer of the same length join to something else. */
  lemma FewerJoinShorter(held: seq<string>, chunks: seq<string>, sep: string)
    requires |held| < |chunks| && Length(held) == Length(chunks) && sep != "" && Join(chunks, sep) != ""
    ensures Join(held, sep) != Join(chunks, sep)
  {
    if held != [] {
      JoinLength(held, sep);
      JoinLength(chunks, sep);
      SeparatorsGrow(|held|, |chunks|, sep);
    }
  }

  /** Joining the messages by the separator gives back the text if and only if no chunk is lost. */
  lemma MessagesRejoinIff(text: string, sep: string, maxLength: int, messages: seq<string>)
    requires text != "" && SplitBest(text, sep, maxLength, messages)
    ensures Join(messages, sep) == text <==> Lost(text, sep, maxLength) == 0
  {
    var chunks, lost := Split(text, sep), Lost(text, sep, maxLength);
    JoinSplit(text, sep);
    var groups :| Packing(chunks, sep, maxLength, groups, messages, |chunks| - lost);
    JoinGroups(groups, messages, sep);
    if sep == "" {
      LettersNotEmpty(text);
      NoEmptyNoneSkipped(0, chunks, sep, maxLength);
    } else if lost > 0 {
      EmptyAddsNothing(chunks);
      EmptyAddsNothing(Flatten(groups));
      FewerJoinShorter(Flatten(groups), chunks, sep);
    }
  }

  /** A text too long for one message that begins with the separator loses it. */
  lemma LeadingSeparatorLost(sep: string, rest: string, maxLength: int, messages: seq<string>)
    requires sep != "" && |sep + rest| > maxLength && SplitBest(sep + rest, sep, maxLength, messages)
    ensures Join(messages, sep) != sep + rest
  {
    var text := sep + rest;
    assert text[0..0 + |sep|] == sep;
    assert IndexOf(text, sep) == Some(0);
    assert Split(text, sep)[0] == "";
    MessagesRejoinIff(text, sep, maxLength, messages);
  }

  /** No chunk is lost when none is empty. */
  lemma NothingLost(text: string, sep: string, maxLength: int)
    requires "" !in Split(text, sep)
    ensures Lost(text, sep, maxLength) == 0
  {
    NoEmptyNoneSkipped(0, Split(text, sep), sep, maxLength);
  }

  /** No grouping of the chunks into messages that fit uses fewer messages, empty chunks or not. */
  lemma FewestMessages(text: string, sep: string, maxLength: int, messages: seq<string>, groups: seq<seq<string>>)
    requires text != "" && SplitBest(text, sep, maxLength, messages)
    requires Flatten(groups) == Split(text, sep)
    requires forall g :: g in groups ==> |Join(g, sep)| <= maxLength
    ensures |messages| <= |groups|
  {
    if |text| > maxLength {
      assert Flatten(groups) + [] == Split(text, sep);
      NeededIsLeast(Split(text, sep), sep, maxLength, groups, []);
    }
  }
}
