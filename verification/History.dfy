/** Merging the history a backend reports into the transcript a client watched. */
module History {
  import opened Text
  import opened Conversations

  lemma {:induction false} FindMatchSpec(local: seq<Message>, cursor: nat, m: Message)
    requires cursor <= |local|
    ensures var i := FindMatch(local, cursor, m);
      && (i < |local| ==> Matches(local[i], m))
      && forall j :: cursor <= j < i ==> !Matches(local[j], m)
    decreases |local| - cursor
  {
    if cursor < |local| && !Matches(local[cursor], m) {
      FindMatchSpec(local, cursor + 1, m);
    }
  }

  lemma {:induction false} FileOnlySpec(ms: seq<Message>, m: Message)
    ensures m in FileOnlyReplies(ms) <==> m in ms && IsFileOnlyReply(m)
  {
    if ms != [] {
      assert ms == [ms[0]] + ms[1..];
      FileOnlySpec(ms[1..], m);
    }
  }

  // ----- adding what is missing

  /** `all` is `base` and then only keys that were not there. */
  ghost predicate Extends<T>(base: seq<T>, all: seq<T>, key: T -> string) {
    |base| <= |all|
    && if |all| == |base| then all == base
       else !HasKey(all[..|all| - 1], key, key(all[|all| - 1])) && Extends(base, all[..|all| - 1], key)
  }

  lemma {:induction false} AddNewExtends<T>(base: seq<T>, more: seq<T>, key: T -> string)
    ensures Extends(base, AddNew(base, more, key), key)
  {
    if more != [] {
      var added, last := AddNew(base, more[..|more| - 1], key), more[|more| - 1];
      AddNewExtends(base, more[..|more| - 1], key);
      assert (added + [last])[..|added|] == added;
    }
  }

  lemma {:induction false} ExtendsIsTransitive<T>(a: seq<T>, b: seq<T>, c: seq<T>, key: T -> string)
    requires Extends(a, b, key) && Extends(b, c, key)
    ensures Extends(a, c, key)
  {
    if |c| > |b| {
      ExtendsIsTransitive(a, b, c[..|c| - 1], key);
    }
  }

  lemma {:induction false} AddNewOfOwn<T>(base: seq<T>, k: nat, key: T -> string)
    requires k <= |base|
    ensures AddNew(base, base[..k], key) == base
  {
    if k > 0 {
      AddNewOfOwn(base, k - 1, key);
      assert base[..k][..k - 1] == base[..k - 1];
      HasOwnKey(base, k - 1, key);
    }
  }

  lemma {:induction false} HasOwnKey<T>(items: seq<T>, i: nat, key: T -> string)
    requires i < |items|
    ensures HasKey(items, key, key(items[i]))
  {
    if i < |items| - 1 {
      HasOwnKey(items[..|items| - 1], i, key);
    }
  }

  /** Adding again what was added adds nothing. */
  lemma {:induction false} AddNewOnce<T>(base: seq<T>, all: seq<T>, key: T -> string)
    requires Extends(base, all, key)
    ensures AddNew(base, all, key) == all
  {
    if |all| == |base| {
      AddNewOfOwn(base, |base|, key);
      assert base[..|base|] == base;
    } else {
      AddNewOnce(base, all[..|all| - 1], key);
      assert all == all[..|all| - 1] + [all[|all| - 1]];
    }
  }

  lemma {:induction false} AddNewHasAll<T>(base: seq<T>, more: seq<T>, key: T -> string, k: string)
    ensures HasKey(AddNew(base, more, key), key, k) <==> HasKey(base, key, k) || HasKey(more, key, k)
  {
    if more != [] {
      var rest, last := more[..|more| - 1], more[|more| - 1];
      AddNewHasAll(base, rest, key, k);
      HasKeyInAppend(rest, last, key, k);
      HasKeyInAppend(AddNew(base, rest, key), last, key, k);
      assert more == rest + [last];
    }
  }

  lemma {:induction false} HasKeyInAppend<T>(items: seq<T>, last: T, key: T -> string, k: string)
    ensures HasKey(items + [last], key, k) <==> HasKey(items, key, k) || key(last) == k
  {
    assert (items + [last])[..|items|] == items;
  }

  // ----- what the merge makes of a reported message

  /** `e` is the reported message `m` and nothing of it is gone. */
  ghost predicate Enriches(m: Message, e: Message) {
    && e == m.(content := e.content, attachments := e.attachments, toolCalls := e.toolCalls)
    && Extends(m.attachments, e.attachments, PathOf)
    && Extends(m.toolCalls, e.toolCalls, IdOf)
    && (m.role != Assistant ==> e.toolCalls == m.toolCalls)
    && Matches(e, m)
    && (e.attachments == [] || m.attachmentMatchText == None ==> e.content == m.content)
  }

  lemma {:induction false} HoldingsExtend(m: Message, from: seq<Message>)
    ensures var e := WithHoldings(m, from);
      && e == m.(attachments := e.attachments, toolCalls := e.toolCalls)
      && Extends(m.attachments, e.attachments, PathOf)
      && Extends(m.toolCalls, e.toolCalls, IdOf)
  {
    if from != [] {
      var rest, last := WithHoldings(m, from[..|from| - 1]), from[|from| - 1];
      HoldingsExtend(m, from[..|from| - 1]);
      AddNewExtends(rest.attachments, last.attachments, PathOf);
      AddNewExtends(rest.toolCalls, last.toolCalls, IdOf);
      var e := WithHoldings(m, from);
      ExtendsIsTransitive(m.attachments, rest.attachments, e.attachments, PathOf);
      ExtendsIsTransitive(m.toolCalls, rest.toolCalls, e.toolCalls, IdOf);
    }
  }

  lemma {:induction false} FilesStay(base: seq<Attachment>, more: seq<Attachment>)
    requires more != []
    ensures AddNew(base, more, PathOf) != []
  {
    HasOwnKey(more, 0, PathOf);
    AddNewHasAll(base, more, PathOf, PathOf(more[0]));
  }

  lemma {:induction false} FiledEnriches(m: Message, own: Message)
    requires Matches(own, m)
    ensures Enriches(m, WithFilesOf(Worded(m, own), own))
  {
    AddNewExtends(m.attachments, own.attachments, PathOf);
    if own.attachments != [] {
      FilesStay(m.attachments, own.attachments);
    }
  }

  lemma {:induction false} HeldEnriches(m: Message, filed: Message, from: seq<Message>)
    requires Enriches(m, filed) && m.role == Assistant
    ensures Enriches(m, WithHoldings(filed, from))
  {
    var e := WithHoldings(filed, from);
    HoldingsExtend(filed, from);
    ExtendsIsTransitive(m.attachments, filed.attachments, e.attachments, PathOf);
    ExtendsIsTransitive(m.toolCalls, filed.toolCalls, e.toolCalls, IdOf);
    assert |filed.attachments| <= |e.attachments|;
  }

  lemma {:induction false} EnrichedEnriches(m: Message, local: seq<Message>, cursor: nat, i: nat)
    requires cursor <= i < |local| && Matches(local[i], m)
    ensures Enriches(m, Enriched(m, local, cursor, i))
  {
    FiledEnriches(m, local[i]);
    if m.role == Assistant {
      HeldEnriches(m, WithFilesOf(Worded(m, local[i]), local[i]), local[cursor..i + 1]);
    }
  }

  lemma {:induction false} HoldingsOfOne(m: Message, from: seq<Message>, last: Message)
    requires from == [last]
    ensures WithHoldings(m, from) == WithFilesOf(m, last).(toolCalls := AddNew(m.toolCalls, last.toolCalls, IdOf))
  {
    assert from[..0] == [];
    assert WithHoldings(m, from[..0]) == m;
  }

  lemma {:induction false} FiledOnce(m: Message, e: Message)
    requires Enriches(m, e)
    ensures WithFilesOf(Worded(m, e), e) == e.(toolCalls := m.toolCalls)
  {
    AddNewOnce(m.attachments, e.attachments, PathOf);
  }

  lemma {:induction false} HeldOnce(m: Message, e: Message)
    requires Enriches(m, e)
    ensures WithHoldings(e.(toolCalls := m.toolCalls), [e]) == e
  {
    AddNewOnce(m.toolCalls, e.toolCalls, IdOf);
    AddNewOnce(e.attachments, e.attachments, PathOf);
    HoldingsOfOne(e.(toolCalls := m.toolCalls), [e], e);
  }

  lemma {:induction false} OneCandidate(local: seq<Message>, i: nat)
    requires i < |local|
    ensures local[i..i + 1] == [local[i]]
  {
  }

  /** Enriching once more with the outcome of the first time changes nothing. */
  lemma {:induction false} EnrichedOnce(m: Message, e: Message, local: seq<Message>, cursor: nat, i: nat)
    requires cursor <= i < |local| && local[i] == e && Enriches(m, e)
    requires m.role == Assistant ==> i == cursor
    ensures Enriched(m, local, cursor, i) == e
  {
    FiledOnce(m, e);
    HeldOnce(m, e);
    OneCandidate(local, i);
  }

  // ----- merging the same history again

  lemma {:induction false} FileOnlyTwice(ms: seq<Message>)
    ensures FileOnlyReplies(FileOnlyReplies(ms)) == FileOnlyReplies(ms)
  {
    if ms != [] {
      FileOnlyTwice(ms[1..]);
      var rest := FileOnlyReplies(ms[1..]);
      assert ([ms[0]] + rest)[1..] == rest;
      assert [] + rest == rest;
    }
  }

  /** `e` stands after `passed`, and merging `m` comes to it. */
  ghost predicate IsAgain(local: seq<Message>, at: nat, passed: seq<Message>, e: Message, m: Message) {
    && at + |passed| < |local|
    && local[at..at + |passed|] == passed && local[at + |passed|] == e
    && FindMatch(local, at, m) == at + |passed|
    && (m.role == Assistant ==> passed == [])
  }

  lemma {:induction false} FoundAgain(local: seq<Message>, at: nat, passed: seq<Message>, e: Message, m: Message)
    requires at + |passed| < |local|
    requires local[at..at + |passed|] == passed && local[at + |passed|] == e
    requires Matches(e, m)
    requires forall p :: p in passed ==> p.role == Assistant
    requires m.role == Assistant ==> passed == []
    ensures IsAgain(local, at, passed, e, m)
  {
    FindMatchSpec(local, at, m);
    forall j | at <= j < at + |passed| ensures !Matches(local[j], m) {
      assert local[j] == passed[j - at];
    }
  }

  lemma {:induction false} PassedAgain(local: seq<Message>, at: nat, passed: seq<Message>, e: Message, m: Message)
    requires IsAgain(local, at, passed, e, m) && FileOnlyReplies(passed) == passed
    ensures PassedOver(m, local, at) == passed
  {
  }

  lemma {:induction false} StepAgain(local: seq<Message>, at: nat, passed: seq<Message>, e: Message, m: Message)
    requires IsAgain(local, at, passed, e, m) && FileOnlyReplies(passed) == passed
    requires Enriched(m, local, at, at + |passed|) == e
    ensures MergedStep(m, local, at) == passed + [e]
    ensures NextCursor(m, local, at) == at + |passed| + 1
  {
    PassedAgain(local, at, passed, e, m);
  }

  lemma {:induction false} KeptEnriches(m: Message, local: seq<Message>, cursor: nat)
    requires cursor <= |local|
    ensures Enriches(m, Kept(m, local, cursor))
  {
    FindMatchSpec(local, cursor, m);
    var i := FindMatch(local, cursor, m);
    if i < |local| {
      EnrichedEnriches(m, local, cursor, i);
    }
  }

  lemma {:induction false} PassedOverSpec(m: Message, local: seq<Message>, cursor: nat)
    requires cursor <= |local|
    ensures var passed := PassedOver(m, local, cursor);
      && FileOnlyReplies(passed) == passed
      && forall p :: p in passed ==> p in local && IsFileOnlyReply(p)
  {
    var i := FindMatch(local, cursor, m);
    FileOnlyTwice(local[cursor..i]);
    forall p | p in PassedOver(m, local, cursor) ensures p in local && IsFileOnlyReply(p) {
      FileOnlySpec(local[cursor..i], p);
    }
  }

  lemma {:induction false} FileOnlyAgain(before: seq<Message>, ms: seq<Message>, all: seq<Message>)
    requires all == before + FileOnlyReplies(ms)
    ensures FileOnlyReplies(all[|before|..]) == FileOnlyReplies(ms)
  {
    FileOnlyTwice(ms);
    assert all[|before|..] == FileOnlyReplies(ms);
  }

  lemma {:induction false} MergeStepAgain(before: seq<Message>, local: seq<Message>, cursor: nat,
                                          m: Message, rest: seq<Message>, all: seq<Message>)
    requires cursor <= |local|
    requires all == before + (MergedStep(m, local, cursor) + rest)
    ensures MergedStep(m, all, |before|) == MergedStep(m, local, cursor)
    ensures NextCursor(m, all, |before|) == |before + MergedStep(m, local, cursor)|
  {
    var passed, e := PassedOver(m, local, cursor), Kept(m, local, cursor);
    KeptEnriches(m, local, cursor);
    PassedOverSpec(m, local, cursor);
    Located(before, passed, e, rest, all);
    FoundAgain(all, |before|, passed, e, m);
    EnrichedOnce(m, e, all, |before|, |before| + |passed|);
    StepAgain(all, |before|, passed, e, m);
  }

  lemma {:induction false} MergeTwiceFrom(before: seq<Message>, local: seq<Message>, cursor: nat,
                                          reported: seq<Message>, all: seq<Message>)
    requires cursor <= |local|
    requires all == before + Merged(local, cursor, reported)
    ensures Merged(all, |before|, reported) == Merged(local, cursor, reported)
    decreases |reported|
  {
    if reported == [] {
      FileOnlyAgain(before, local[cursor..], all);
    } else {
      var m, next := reported[0], NextCursor(reported[0], local, cursor);
      var step, rest := MergedStep(m, local, cursor), Merged(local, next, reported[1..]);
      MergeStepAgain(before, local, cursor, m, rest, all);
      MergedJoins(before, step, rest);
      MergeTwiceFrom(before + step, local, next, reported[1..], all);
    }
  }

  lemma {:induction false} Located(before: seq<Message>, passed: seq<Message>, e: Message,
                                   rest: seq<Message>, all: seq<Message>)
    requires all == before + (passed + [e] + rest)
    ensures |before| + |passed| < |all|
    ensures all[|before|..|before| + |passed|] == passed && all[|before| + |passed|] == e
  {
  }

  /** Reading the same history once more changes nothing, whatever the client had before. */
  lemma {:induction false} MergeIsIdempotent(c: Chat, reported: seq<Message>)
    ensures TranscriptMerged(TranscriptMerged(c, reported), reported) == TranscriptMerged(c, reported)
  {
    var merged := Merged(c.messages, 0, reported);
    assert merged == [] + merged;
    MergeTwiceFrom([], c.messages, 0, reported, merged);
  }

  // ----- the shape of the result

  /** The reported messages, in order and enriched, and between them file-only replies of the
      local list, in its order and each once, and nothing else. */
  ghost predicate WovenFrom(local: seq<Message>, reported: seq<Message>, out: seq<Message>)
    decreases |local| + |out|
  {
    || (out == [] && reported == [])
    || (local != [] && WovenFrom(local[1..], reported, out))
    || (local != [] && out != [] && out[0] == local[0] && IsFileOnlyReply(out[0])
        && WovenFrom(local[1..], reported, out[1..]))
    || (reported != [] && out != [] && Enriches(reported[0], out[0]) && WovenFrom(local, reported[1..], out[1..]))
  }

  lemma {:induction false} SkippingWeaves(skipped: seq<Message>, local: seq<Message>, reported: seq<Message>,
                                          out: seq<Message>)
    requires WovenFrom(local, reported, out)
    ensures WovenFrom(skipped + local, reported, out)
  {
    if skipped == [] {
      assert skipped + local == local;
    } else {
      SkippingWeaves(skipped[1..], local, reported, out);
      assert (skipped + local)[1..] == skipped[1..] + local;
    }
  }

  lemma {:induction false} KeepingWeaves(m: Message, local: seq<Message>, reported: seq<Message>, out: seq<Message>)
    requires IsFileOnlyReply(m) && WovenFrom(local, reported, out)
    ensures WovenFrom([m] + local, reported, [m] + out)
  {
    assert ([m] + local)[1..] == local && ([m] + out)[1..] == out;
  }

  lemma {:induction false} FileOnlyWeaves(ms: seq<Message>, local: seq<Message>, reported: seq<Message>,
                                          out: seq<Message>)
    requires WovenFrom(local, reported, out)
    ensures WovenFrom(ms + local, reported, FileOnlyReplies(ms) + out)
  {
    if ms == [] {
      assert ms + local == local && FileOnlyReplies(ms) + out == out;
    } else {
      var rest := FileOnlyReplies(ms[1..]) + out;
      FileOnlyWeaves(ms[1..], local, reported, out);
      assert ms + local == [ms[0]] + (ms[1..] + local);
      if IsFileOnlyReply(ms[0]) {
        KeepingWeaves(ms[0], ms[1..] + local, reported, rest);
        assert FileOnlyReplies(ms) + out == [ms[0]] + rest;
      } else {
        SkippingWeaves([ms[0]], ms[1..] + local, reported, rest);
        assert FileOnlyReplies(ms) + out == rest;
      }
    }
  }

  lemma {:induction false} ReportedWeaves(e: Message, local: seq<Message>, reported: seq<Message>, rest: seq<Message>)
    requires reported != [] && Enriches(reported[0], e) && WovenFrom(local, reported[1..], rest)
    ensures WovenFrom(local, reported, [e] + rest)
  {
    assert ([e] + rest)[1..] == rest;
  }

  /** Up to the local match, which the step uses up. */
  lemma {:induction false} PassingWeaves(m: Message, local: seq<Message>, cursor: nat, reported: seq<Message>,
                                         out: seq<Message>)
    requires cursor <= |local| && WovenFrom(local[NextCursor(m, local, cursor)..], reported, out)
    ensures WovenFrom(local[cursor..], reported, PassedOver(m, local, cursor) + out)
  {
    var i := FindMatch(local, cursor, m);
    assert [] + out == out;
    if i < |local| {
      SkippingWeaves([local[i]], local[i + 1..], reported, out);
      assert [local[i]] + local[i + 1..] == local[i..];
      assert local[cursor..i] + local[i..] == local[cursor..];
      if m.role == Assistant {
        SkippingWeaves(local[cursor..i], local[i..], reported, out);
      } else {
        FileOnlyWeaves(local[cursor..i], local[i..], reported, out);
      }
    }
  }

  lemma {:induction false} StepWeaves(local: seq<Message>, cursor: nat, reported: seq<Message>, rest: seq<Message>)
    requires cursor <= |local| && reported != []
    requires WovenFrom(local[NextCursor(reported[0], local, cursor)..], reported[1..], rest)
    ensures WovenFrom(local[cursor..], reported, MergedStep(reported[0], local, cursor) + rest)
  {
    var m := reported[0];
    var e := Kept(m, local, cursor);
    KeptEnriches(m, local, cursor);
    ReportedWeaves(e, local[NextCursor(m, local, cursor)..], reported, rest);
    PassingWeaves(m, local, cursor, reported, [e] + rest);
    assert PassedOver(m, local, cursor) + ([e] + rest) == MergedStep(m, local, cursor) + rest;
  }

  lemma {:induction false} MergeWeavesFrom(local: seq<Message>, cursor: nat, reported: seq<Message>)
    requires cursor <= |local|
    ensures WovenFrom(local[cursor..], reported, Merged(local, cursor, reported))
    decreases |reported|
  {
    if reported == [] {
      FileOnlyWeaves(local[cursor..], [], [], []);
      assert local[cursor..] + [] == local[cursor..];
      assert FileOnlyReplies(local[cursor..]) + [] == FileOnlyReplies(local[cursor..]);
    } else {
      var next := NextCursor(reported[0], local, cursor);
      MergeWeavesFrom(local, next, reported[1..]);
      StepWeaves(local, cursor, reported, Merged(local, next, reported[1..]));
    }
  }

  lemma {:induction false} MergeWeaves(c: Chat, reported: seq<Message>)
    ensures WovenFrom(c.messages, reported, TranscriptMerged(c, reported).messages)
  {
    MergeWeavesFrom(c.messages, 0, reported);
    assert c.messages[0..] == c.messages;
  }

  // ----- nothing the client saw is lost

  predicate ShowsFile(ms: seq<Message>, path: string) {
    ms != [] && (HasKey(ms[|ms| - 1].attachments, PathOf, path) || ShowsFile(ms[..|ms| - 1], path))
  }

  lemma {:induction false} HoldingsHaveFiles(m: Message, from: seq<Message>, k: nat, path: string)
    requires k < |from| && HasKey(from[k].attachments, PathOf, path)
    ensures HasKey(WithHoldings(m, from).attachments, PathOf, path)
  {
    var last := from[|from| - 1];
    var rest := WithHoldings(m, from[..|from| - 1]);
    AddNewHasAll(rest.attachments, last.attachments, PathOf, path);
    if k < |from| - 1 {
      HoldingsHaveFiles(m, from[..|from| - 1], k, path);
    }
  }

  lemma {:induction false} ShowsFileInPart(a: seq<Message>, b: seq<Message>, path: string)
    requires ShowsFile(a, path) || ShowsFile(b, path)
    ensures ShowsFile(a + b, path)
  {
    if b == [] {
      assert a + b == a;
    } else {
      assert (a + b)[..|a + b| - 1] == a + b[..|b| - 1];
      if !HasKey(b[|b| - 1].attachments, PathOf, path) {
        ShowsFileInPart(a, b[..|b| - 1], path);
      }
    }
  }

  lemma {:induction false} ShowsFileOf(ms: seq<Message>, i: nat, path: string)
    requires i < |ms| && HasKey(ms[i].attachments, PathOf, path)
    ensures ShowsFile(ms, path)
  {
    if i < |ms| - 1 {
      ShowsFileOf(ms[..|ms| - 1], i, path);
    }
  }

  lemma {:induction false} FileOnlyShowsFile(ms: seq<Message>, i: nat, path: string)
    requires i < |ms| && IsFileOnlyReply(ms[i]) && HasKey(ms[i].attachments, PathOf, path)
    ensures ShowsFile(FileOnlyReplies(ms), path)
  {
    FileOnlySpec(ms, ms[i]);
    var k :| 0 <= k < |FileOnlyReplies(ms)| && FileOnlyReplies(ms)[k] == ms[i];
    ShowsFileOf(FileOnlyReplies(ms), k, path);
  }

  lemma {:induction false} EnrichedHasFiles(m: Message, local: seq<Message>, cursor: nat, i: nat, j: nat, path: string)
    requires cursor <= j <= i < |local| && m.role == Assistant
    requires HasKey(local[j].attachments, PathOf, path)
    ensures HasKey(Enriched(m, local, cursor, i).attachments, PathOf, path)
  {
    var filed := WithFilesOf(Worded(m, local[i]), local[i]);
    HoldingsHaveFiles(filed, local[cursor..i + 1], j - cursor, path);
  }

  lemma {:induction false} FileIsPassedOver(m: Message, local: seq<Message>, cursor: nat, j: nat, path: string)
    requires cursor <= |local| && cursor <= j < NextCursor(m, local, cursor) && m.role != Assistant
    requires IsFileOnlyReply(local[j]) && HasKey(local[j].attachments, PathOf, path)
    ensures ShowsFile(PassedOver(m, local, cursor), path)
  {
    FindMatchSpec(local, cursor, m);
    FileOnlyShowsFile(local[cursor..FindMatch(local, cursor, m)], j - cursor, path);
  }

  lemma {:induction false} FileReachesStep(m: Message, local: seq<Message>, cursor: nat, j: nat, path: string)
    requires cursor <= |local| && cursor <= j < NextCursor(m, local, cursor)
    requires IsFileOnlyReply(local[j]) && HasKey(local[j].attachments, PathOf, path)
    ensures ShowsFile(MergedStep(m, local, cursor), path)
  {
    var i := FindMatch(local, cursor, m);
    var e := Kept(m, local, cursor);
    if m.role == Assistant {
      EnrichedHasFiles(m, local, cursor, i, j, path);
      ShowsFileOf([e], 0, path);
    } else {
      FileIsPassedOver(m, local, cursor, j, path);
    }
    ShowsFileInPart(PassedOver(m, local, cursor), [e], path);
  }

  lemma {:induction false} FilesReachMerged(local: seq<Message>, cursor: nat, reported: seq<Message>,
                                            j: nat, path: string)
    requires cursor <= j < |local|
    requires IsFileOnlyReply(local[j]) && HasKey(local[j].attachments, PathOf, path)
    ensures ShowsFile(Merged(local, cursor, reported), path)
    decreases |reported|
  {
    if reported == [] {
      FileOnlyShowsFile(local[cursor..], j - cursor, path);
    } else {
      var m, next := reported[0], NextCursor(reported[0], local, cursor);
      if j < next {
        FileReachesStep(m, local, cursor, j, path);
      } else {
        FilesReachMerged(local, next, reported[1..], j, path);
      }
      ShowsFileInPart(MergedStep(m, local, cursor),
                      Merged(local, next, reported[1..]), path);
    }
  }

  /** Every file of a reply that was only files is still shown. */
  lemma {:induction false} NoFileIsLost(c: Chat, reported: seq<Message>, m: Message, path: string)
    requires m in c.messages && IsFileOnlyReply(m) && HasKey(m.attachments, PathOf, path)
    ensures ShowsFile(TranscriptMerged(c, reported).messages, path)
  {
    var j :| 0 <= j < |c.messages| && c.messages[j] == m;
    FilesReachMerged(c.messages, 0, reported, j, path);
  }

  // ----- tool calls

  predicate IsText(m: Message) {
    m.role != Assistant || !IsBlank(m.content)
  }

  /** A history reports text and no tool calls. */
  predicate IsReportOf(m: Message, r: Message) {
    && r.role == m.role && Trim(r.content) == Trim(m.content) && r.toolCalls == []
    && (r.role == Assistant && r.attachmentMatchText.Some? ==> !IsBlank(r.attachmentMatchText.value))
  }

  /** `reported` is the text of the local messages from the cursor on. */
  predicate Reports(local: seq<Message>, cursor: nat, reported: seq<Message>)
    requires cursor <= |local|
    decreases |local| - cursor
  {
    if cursor == |local| then reported == []
    else if !IsText(local[cursor]) then Reports(local, cursor + 1, reported)
    else reported != [] && IsReportOf(local[cursor], reported[0]) && Reports(local, cursor + 1, reported[1..])
  }

  ghost predicate NoTextIn(local: seq<Message>, from: nat, to: nat)
    requires to <= |local|
  {
    forall j :: from <= j < to ==> !IsText(local[j])
  }

  lemma {:induction false} NothingReported(local: seq<Message>, cursor: nat)
    requires cursor <= |local| && Reports(local, cursor, [])
    ensures NoTextIn(local, cursor, |local|)
    decreases |local| - cursor
  {
    if cursor < |local| {
      NothingReported(local, cursor + 1);
    }
  }

  lemma {:induction false} ReportFound(local: seq<Message>, cursor: nat, reported: seq<Message>)
    requires cursor <= |local| && Reports(local, cursor, reported) && reported != []
    ensures var i := FindMatch(local, cursor, reported[0]);
      && i < |local| && IsText(local[i]) && IsReportOf(local[i], reported[0])
      && NoTextIn(local, cursor, i)
      && Reports(local, i + 1, reported[1..])
    decreases |local| - cursor
  {
    if !IsText(local[cursor]) {
      ReportFound(local, cursor + 1, reported);
      assert !Matches(local[cursor], reported[0]);
    }
  }

  lemma {:induction false} RestIsReported(local: seq<Message>, cursor: nat, reported: seq<Message>)
    requires cursor <= |local| && Reports(local, cursor, reported) && reported != []
    ensures Reports(local, NextCursor(reported[0], local, cursor), reported[1..])
  {
    ReportFound(local, cursor, reported);
  }

  /** From this reply on, the turn comes to a reply with text. */
  predicate Answered(local: seq<Message>, j: nat)
    decreases |local| - j
  {
    j < |local| && local[j].role == Assistant && (IsText(local[j]) || Answered(local, j + 1))
  }

  predicate HoldsCall(ms: seq<Message>, id: string) {
    ms != [] && (HasKey(ms[|ms| - 1].toolCalls, IdOf, id) || HoldsCall(ms[..|ms| - 1], id))
  }

  predicate IsKeptCall(local: seq<Message>, j: nat, id: string)
    requires j < |local|
  {
    && local[j].role == Assistant && HasKey(local[j].toolCalls, IdOf, id)
    && (Answered(local, j) || local[j].attachments != [])
  }

  lemma {:induction false} HoldsCallInParts(a: seq<Message>, b: seq<Message>, id: string)
    ensures HoldsCall(a + b, id) <==> HoldsCall(a, id) || HoldsCall(b, id)
  {
    if b == [] {
      assert a + b == a;
    } else {
      assert (a + b)[..|a + b| - 1] == a + b[..|b| - 1];
      HoldsCallInParts(a, b[..|b| - 1], id);
    }
  }

  lemma {:induction false} HoldsCallOf(ms: seq<Message>, i: nat, id: string)
    requires i < |ms| && HasKey(ms[i].toolCalls, IdOf, id)
    ensures HoldsCall(ms, id)
  {
    if i < |ms| - 1 {
      HoldsCallOf(ms[..|ms| - 1], i, id);
    }
  }

  lemma {:induction false} FileOnlyHoldsCall(ms: seq<Message>, i: nat, id: string)
    requires i < |ms| && IsFileOnlyReply(ms[i]) && HasKey(ms[i].toolCalls, IdOf, id)
    ensures HoldsCall(FileOnlyReplies(ms), id)
  {
    FileOnlySpec(ms, ms[i]);
    var k :| 0 <= k < |FileOnlyReplies(ms)| && FileOnlyReplies(ms)[k] == ms[i];
    HoldsCallOf(FileOnlyReplies(ms), k, id);
  }

  lemma {:induction false} HoldingsHaveCalls(m: Message, from: seq<Message>, id: string)
    ensures HasKey(WithHoldings(m, from).toolCalls, IdOf, id)
       <==> HasKey(m.toolCalls, IdOf, id) || HoldsCall(from, id)
  {
    if from != [] {
      var rest, last := from[..|from| - 1], from[|from| - 1];
      HoldingsHaveCalls(m, rest, id);
      AddNewHasAll(WithHoldings(m, rest).toolCalls, last.toolCalls, IdOf, id);
    }
  }

  /** Whose calls one step keeps: before a reply, everybody's up to its local match; before a
      prompt, only those of file-only replies. */
  function Holders(local: seq<Message>, cursor: nat, i: nat): seq<Message>
    requires cursor <= i < |local|
  {
    if local[i].role == Assistant then local[cursor..i + 1] else FileOnlyReplies(local[cursor..i])
  }

  lemma {:induction false} ReplyCalls(m: Message, local: seq<Message>, cursor: nat, i: nat, id: string)
    requires cursor <= i < |local| && m.toolCalls == []
    ensures HasKey(Enriched(m, local, cursor, i).toolCalls, IdOf, id)
       <==> m.role == Assistant && HoldsCall(local[cursor..i + 1], id)
  {
    if m.role == Assistant {
      var filed := WithFilesOf(Worded(m, local[i]), local[i]);
      HoldingsHaveCalls(filed, local[cursor..i + 1], id);
    }
  }

  lemma {:induction false} AppendedCall(ms: seq<Message>, last: Message, id: string)
    ensures HoldsCall(ms + [last], id) <==> HoldsCall(ms, id) || HasKey(last.toolCalls, IdOf, id)
  {
    assert (ms + [last])[..|ms|] == ms;
  }

  lemma {:induction false} StepCalls(m: Message, local: seq<Message>, cursor: nat, id: string)
    requires cursor <= |local| && m.toolCalls == [] && FindMatch(local, cursor, m) < |local|
    ensures HoldsCall(MergedStep(m, local, cursor), id)
       <==> HoldsCall(Holders(local, cursor, FindMatch(local, cursor, m)), id)
  {
    var i := FindMatch(local, cursor, m);
    var passed, e := PassedOver(m, local, cursor), Kept(m, local, cursor);
    assert local[i].role == m.role by {
      FindMatchSpec(local, cursor, m);
    }
    AppendedCall(passed, e, id);
    ReplyCalls(m, local, cursor, i, id);
  }

  lemma {:induction false} FirstTextDecides(local: seq<Message>, cursor: nat, i: nat, j: nat)
    requires cursor <= j <= i < |local| && NoTextIn(local, cursor, i) && IsText(local[i])
    ensures Answered(local, j) <==> local[i].role == Assistant
    decreases i - j
  {
    if j < i {
      FirstTextDecides(local, cursor, i, j + 1);
    }
  }

  lemma {:induction false} NoTextNoAnswer(local: seq<Message>, j: nat)
    requires j <= |local| && NoTextIn(local, j, |local|)
    ensures !Answered(local, j)
    decreases |local| - j
  {
    if j < |local| {
      NoTextNoAnswer(local, j + 1);
    }
  }

  lemma {:induction false} KeptCallsReachStep(local: seq<Message>, cursor: nat, i: nat, j: nat, id: string)
    requires cursor <= j <= i < |local| && NoTextIn(local, cursor, i) && IsText(local[i])
    requires IsKeptCall(local, j, id)
    ensures HoldsCall(Holders(local, cursor, i), id)
  {
    FirstTextDecides(local, cursor, i, j);
    if local[i].role == Assistant {
      HoldsCallOf(local[cursor..i + 1], j - cursor, id);
    } else {
      assert !IsText(local[j]);
      FileOnlyHoldsCall(local[cursor..i], j - cursor, id);
    }
  }

  lemma {:induction false} KeptCallsReachEnd(local: seq<Message>, cursor: nat, j: nat, id: string)
    requires cursor <= j < |local| && NoTextIn(local, cursor, |local|) && IsKeptCall(local, j, id)
    ensures HoldsCall(FileOnlyReplies(local[cursor..]), id)
  {
    NoTextNoAnswer(local, j);
    FileOnlyHoldsCall(local[cursor..], j - cursor, id);
  }

  lemma {:induction false} KeptCallsReachFirst(local: seq<Message>, cursor: nat, reported: seq<Message>,
                                               j: nat, id: string)
    requires cursor <= j < |local| && Reports(local, cursor, reported) && IsKeptCall(local, j, id)
    requires reported != [] && j < NextCursor(reported[0], local, cursor)
    ensures HoldsCall(MergedStep(reported[0], local, cursor), id)
  {
    ReportFound(local, cursor, reported);
    KeptCallsReachStep(local, cursor, FindMatch(local, cursor, reported[0]), j, id);
    StepCalls(reported[0], local, cursor, id);
  }

  lemma {:induction false} KeptCallsReachMerged(local: seq<Message>, cursor: nat, reported: seq<Message>,
                                                j: nat, id: string)
    requires cursor <= j < |local| && Reports(local, cursor, reported) && IsKeptCall(local, j, id)
    ensures HoldsCall(Merged(local, cursor, reported), id)
    decreases |reported|
  {
    if reported == [] {
      NothingReported(local, cursor);
      KeptCallsReachEnd(local, cursor, j, id);
    } else {
      var m, next := reported[0], NextCursor(reported[0], local, cursor);
      HoldsCallInParts(MergedStep(m, local, cursor), Merged(local, next, reported[1..]), id);
      if j < next {
        KeptCallsReachFirst(local, cursor, reported, j, id);
      } else {
        RestIsReported(local, cursor, reported);
        KeptCallsReachMerged(local, next, reported[1..], j, id);
      }
    }
  }

  lemma {:induction false} CallAt(ms: seq<Message>, id: string) returns (k: nat)
    requires HoldsCall(ms, id)
    ensures k < |ms| && HasKey(ms[k].toolCalls, IdOf, id)
  {
    k := |ms| - 1;
    if !HasKey(ms[k].toolCalls, IdOf, id) {
      k := CallAt(ms[..k], id);
    }
  }

  lemma {:induction false} FileOnlyCallAt(ms: seq<Message>, id: string) returns (k: nat)
    requires HoldsCall(FileOnlyReplies(ms), id)
    ensures k < |ms| && HasKey(ms[k].toolCalls, IdOf, id) && IsFileOnlyReply(ms[k])
  {
    var f := CallAt(FileOnlyReplies(ms), id);
    var m := FileOnlyReplies(ms)[f];
    FileOnlySpec(ms, m);
    k :| 0 <= k < |ms| && ms[k] == m;
  }

  lemma {:induction false} StepCallsWereKept(local: seq<Message>, cursor: nat, i: nat, id: string) returns (j: nat)
    requires cursor <= i < |local| && NoTextIn(local, cursor, i) && IsText(local[i])
    requires HoldsCall(Holders(local, cursor, i), id)
    ensures cursor <= j < |local| && IsKeptCall(local, j, id)
  {
    if local[i].role == Assistant {
      var k := CallAt(local[cursor..i + 1], id);
      j := cursor + k;
      FirstTextDecides(local, cursor, i, j);
      assert j < i ==> !IsText(local[j]);
    } else {
      var k := FileOnlyCallAt(local[cursor..i], id);
      j := cursor + k;
    }
  }

  lemma {:induction false} EndCallsWereKept(local: seq<Message>, cursor: nat, id: string) returns (j: nat)
    requires cursor <= |local| && HoldsCall(FileOnlyReplies(local[cursor..]), id)
    ensures cursor <= j < |local| && IsKeptCall(local, j, id)
  {
    var k := FileOnlyCallAt(local[cursor..], id);
    j := cursor + k;
  }

  lemma {:induction false} FirstCallsWereKept(local: seq<Message>, cursor: nat, reported: seq<Message>, id: string)
    returns (j: nat)
    requires cursor <= |local| && Reports(local, cursor, reported) && reported != []
    requires HoldsCall(MergedStep(reported[0], local, cursor), id)
    ensures cursor <= j < |local| && IsKeptCall(local, j, id)
  {
    ReportFound(local, cursor, reported);
    StepCalls(reported[0], local, cursor, id);
    j := StepCallsWereKept(local, cursor, FindMatch(local, cursor, reported[0]), id);
  }

  lemma {:induction false} MergedCallsWereKept(local: seq<Message>, cursor: nat, reported: seq<Message>, id: string)
    returns (j: nat)
    requires cursor <= |local| && Reports(local, cursor, reported)
    requires HoldsCall(Merged(local, cursor, reported), id)
    ensures cursor <= j < |local| && IsKeptCall(local, j, id)
    decreases |reported|
  {
    if reported == [] {
      j := EndCallsWereKept(local, cursor, id);
    } else {
      var step, next := MergedStep(reported[0], local, cursor), NextCursor(reported[0], local, cursor);
      HoldsCallInParts(step, Merged(local, next, reported[1..]), id);
      if HoldsCall(step, id) {
        j := FirstCallsWereKept(local, cursor, reported, id);
      } else {
        RestIsReported(local, cursor, reported);
        j := MergedCallsWereKept(local, next, reported[1..], id);
      }
    }
  }

  /** When the history is the text of what the client watched, a tool call survives exactly if
      it stands in a bubble that holds a file, or that a reply with text follows in its turn. */
  lemma {:induction false} ToolCallSurvivesWhen(c: Chat, reported: seq<Message>, id: string)
    requires Reports(c.messages, 0, reported)
    ensures HoldsCall(TranscriptMerged(c, reported).messages, id)
       <==> exists j :: 0 <= j < |c.messages| && IsKeptCall(c.messages, j, id)
  {
    if j :| 0 <= j < |c.messages| && IsKeptCall(c.messages, j, id) {
      KeptCallsReachMerged(c.messages, 0, reported, j, id);
    }
    if HoldsCall(Merged(c.messages, 0, reported), id) {
      var k := MergedCallsWereKept(c.messages, 0, reported, id);
    }
  }

  // ----- a prompt sent with files

  /** The history reports `m` with its text; a prompt that was sent with files it reports with a
      suffix, and says apart from that what to match it by. */
  predicate Retells(m: Message, r: Message) {
    && r.role == m.role && (r.role == Assistant ==> !IsBlank(r.content))
    && if r.attachmentMatchText.Some? then
         && m.attachments != [] && Trim(r.attachmentMatchText.value) == Trim(m.content)
         && (r.role == Assistant ==> !IsBlank(r.attachmentMatchText.value))
       else Trim(r.content) == Trim(m.content)
  }

  /** What stands for `m` in the result: its own wording if it holds files, its text in any case,
      and every file it holds. */
  predicate StandsFor(m: Message, r: Message, e: Message) {
    && e.role == m.role
    && (r.attachmentMatchText.Some? ==> e.content == m.content)
    && Trim(e.content) == Trim(m.content)
    && forall k :: 0 <= k < |m.attachments| ==> HasKey(e.attachments, PathOf, m.attachments[k].path)
  }

  /** No message from the cursor on is taken for the reported one before the `i`-th. */
  predicate IsFirstLike(local: seq<Message>, cursor: nat, i: nat, r: Message)
    requires i <= |local|
  {
    forall j :: cursor <= j < i ==>
      || local[j].role != r.role
      || (&& Trim(local[j].content) != Trim(r.content)
          && (|| r.attachmentMatchText.None? || local[j].attachments == []
              || Trim(local[j].content) != Trim(r.attachmentMatchText.value)))
  }

  lemma {:induction false} EnrichedStandsFor(local: seq<Message>, cursor: nat, i: nat, r: Message)
    requires cursor <= i < |local| && Retells(local[i], r)
    ensures StandsFor(local[i], r, Enriched(r, local, cursor, i))
  {
    var m, e := local[i], Enriched(r, local, cursor, i);
    var filed := WithFilesOf(Worded(r, m), m);
    HoldingsExtend(filed, local[cursor..i + 1]);
    forall k | 0 <= k < |m.attachments| ensures HasKey(e.attachments, PathOf, m.attachments[k].path) {
      HasOwnKey(m.attachments, k, PathOf);
      AddNewHasAll(r.attachments, m.attachments, PathOf, m.attachments[k].path);
      if r.role == Assistant {
        HoldingsHaveFilesOf(filed, local[cursor..i + 1], m.attachments[k].path);
      }
    }
  }

  lemma {:induction false} HoldingsHaveFilesOf(m: Message, from: seq<Message>, path: string)
    requires HasKey(m.attachments, PathOf, path)
    ensures HasKey(WithHoldings(m, from).attachments, PathOf, path)
  {
    if from != [] {
      var rest, last := from[..|from| - 1], from[|from| - 1];
      HoldingsHaveFilesOf(m, rest, path);
      AddNewHasAll(WithHoldings(m, rest).attachments, last.attachments, PathOf, path);
    }
  }

  lemma {:induction false} FirstLikeIsFound(local: seq<Message>, cursor: nat, i: nat, r: Message)
    requires cursor <= i < |local| && Retells(local[i], r) && IsFirstLike(local, cursor, i, r)
    ensures FindMatch(local, cursor, r) == i
    decreases i - cursor
  {
    if cursor < i {
      FirstLikeIsFound(local, cursor + 1, i, r);
    }
  }

  /** One reported message: the first local message like it gives the result its wording and all
      its files, what was passed over on the way draws only files, and the next one is looked
      for after it. */
  lemma {:induction false} FirstLikeIsRetold(local: seq<Message>, cursor: nat, i: nat, reported: seq<Message>)
    returns (passed: seq<Message>, e: Message)
    requires cursor <= i < |local| && reported != []
    requires Retells(local[i], reported[0]) && IsFirstLike(local, cursor, i, reported[0])
    ensures StandsFor(local[i], reported[0], e)
    ensures forall p :: p in passed ==> IsFileOnlyReply(p) && p in local[cursor..i]
    ensures Merged(local, cursor, reported) == passed + [e] + Merged(local, i + 1, reported[1..])
  {
    FirstLikeIsFound(local, cursor, i, reported[0]);
    EnrichedStandsFor(local, cursor, i, reported[0]);
    passed, e := PassedOver(reported[0], local, cursor), Enriched(reported[0], local, cursor, i);
    MatchedStep(reported[0], local, cursor, i);
    MergedWith(local, cursor, i, reported);
    forall p | p in passed ensures IsFileOnlyReply(p) && p in local[cursor..i] {
      FileOnlySpec(local[cursor..i], p);
    }
  }

  lemma {:induction false} MatchedStep(m: Message, local: seq<Message>, cursor: nat, i: nat)
    requires cursor <= i < |local| && FindMatch(local, cursor, m) == i
    ensures NextCursor(m, local, cursor) == i + 1
    ensures MergedStep(m, local, cursor) == PassedOver(m, local, cursor) + [Enriched(m, local, cursor, i)]
    ensures PassedOver(m, local, cursor) == [] || PassedOver(m, local, cursor) == FileOnlyReplies(local[cursor..i])
  {
  }

  lemma {:induction false} MergedWith(local: seq<Message>, cursor: nat, i: nat, reported: seq<Message>)
    requires cursor <= i < |local| && reported != [] && FindMatch(local, cursor, reported[0]) == i
    ensures Merged(local, cursor, reported)
         == MergedStep(reported[0], local, cursor) + Merged(local, i + 1, reported[1..])
  {
    MatchedStep(reported[0], local, cursor, i);
  }

  // ----- a whole history

  /** `reported` retells the text messages from the cursor on, in order. */
  predicate RetellsAll(local: seq<Message>, cursor: nat, reported: seq<Message>)
    requires cursor <= |local|
    decreases |local| - cursor
  {
    if cursor == |local| then reported == []
    else if !IsText(local[cursor]) then RetellsAll(local, cursor + 1, reported)
    else reported != [] && Retells(local[cursor], reported[0]) && RetellsAll(local, cursor + 1, reported[1..])
  }

  function FirstText(ms: seq<Message>): (i: nat)
    ensures i <= |ms| && (i < |ms| ==> IsText(ms[i]))
  {
    if ms == [] || IsText(ms[0]) then 0 else 1 + FirstText(ms[1..])
  }

  /** The text messages of the result stand for those of the client, one for one and in order. */
  predicate StandForAll(local: seq<Message>, cursor: nat, reported: seq<Message>, out: seq<Message>)
    requires cursor <= |local|
    decreases |local| - cursor
  {
    if cursor == |local| then FirstText(out) == |out|
    else if !IsText(local[cursor]) then StandForAll(local, cursor + 1, reported, out)
    else
      var k := FirstText(out);
      && reported != [] && k < |out| && StandsFor(local[cursor], reported[0], out[k])
      && StandForAll(local, cursor + 1, reported[1..], out[k + 1..])
  }

  lemma {:induction false} NextRetold(local: seq<Message>, cursor: nat, reported: seq<Message>) returns (i: nat)
    requires cursor <= |local| && RetellsAll(local, cursor, reported) && reported != []
    ensures cursor <= i < |local| && IsText(local[i]) && NoTextIn(local, cursor, i)
    ensures Retells(local[i], reported[0]) && RetellsAll(local, i + 1, reported[1..])
    ensures IsFirstLike(local, cursor, i, reported[0])
    decreases |local| - cursor
  {
    if IsText(local[cursor]) {
      i := cursor;
    } else {
      i := NextRetold(local, cursor + 1, reported);
    }
  }

  lemma {:induction false} NoTextPassed(passed: seq<Message>, rest: seq<Message>)
    requires forall p :: p in passed ==> !IsText(p)
    ensures FirstText(passed + rest) == |passed| + FirstText(rest)
  {
    if passed == [] {
      assert passed + rest == rest;
    } else {
      assert (passed + rest)[1..] == passed[1..] + rest;
      NoTextPassed(passed[1..], rest);
    }
  }

  lemma {:induction false} SkipsToNext(local: seq<Message>, cursor: nat, i: nat, reported: seq<Message>,
                                       out: seq<Message>)
    requires cursor <= i <= |local| && NoTextIn(local, cursor, i)
    requires RetellsAll(local, cursor, reported)
    ensures RetellsAll(local, i, reported)
    ensures StandForAll(local, i, reported, out) ==> StandForAll(local, cursor, reported, out)
    decreases i - cursor
  {
    if cursor < i {
      SkipsToNext(local, cursor + 1, i, reported, out);
    }
  }

  lemma {:induction false} NothingRetold(local: seq<Message>, cursor: nat)
    requires cursor <= |local| && RetellsAll(local, cursor, [])
    ensures NoTextIn(local, cursor, |local|)
    decreases |local| - cursor
  {
    if cursor < |local| {
      NothingRetold(local, cursor + 1);
    }
  }

  lemma {:induction false} OneMoreStands(local: seq<Message>, i: nat, reported: seq<Message>, passed: seq<Message>,
                                         e: Message, rest: seq<Message>)
    requires i < |local| && IsText(local[i]) && RetellsAll(local, i, reported)
    requires StandsFor(local[i], reported[0], e) && forall p :: p in passed ==> !IsText(p)
    requires StandForAll(local, i + 1, reported[1..], rest)
    ensures StandForAll(local, i, reported, passed + [e] + rest)
  {
    var out := passed + [e] + rest;
    assert out == passed + ([e] + rest);
    NoTextPassed(passed, [e] + rest);
    StandsForIsText(local[i], reported[0], e);
    assert out[|passed|] == e && out[|passed| + 1..] == rest;
  }

  lemma {:induction false} NothingMoreStands(local: seq<Message>, cursor: nat)
    requires cursor <= |local| && RetellsAll(local, cursor, [])
    ensures StandForAll(local, cursor, [], FileOnlyReplies(local[cursor..]))
  {
    var out := FileOnlyReplies(local[cursor..]);
    NothingRetold(local, cursor);
    SkipsToNext(local, cursor, |local|, [], out);
    forall p | p in out ensures !IsText(p) {
      FileOnlySpec(local[cursor..], p);
    }
    NoTextPassed(out, []);
    assert out + [] == out;
  }

  lemma {:induction false} OneRetold(local: seq<Message>, cursor: nat, i: nat, reported: seq<Message>)
    returns (passed: seq<Message>, e: Message)
    requires cursor <= i < |local| && reported != []
    requires Retells(local[i], reported[0]) && IsFirstLike(local, cursor, i, reported[0])
    ensures StandsFor(local[i], reported[0], e) && forall p :: p in passed ==> !IsText(p)
    ensures Merged(local, cursor, reported) == passed + [e] + Merged(local, i + 1, reported[1..])
  {
    passed, e := FirstLikeIsRetold(local, cursor, i, reported);
  }

  lemma {:induction false} RetoldStep(local: seq<Message>, cursor: nat, i: nat, reported: seq<Message>,
                                      passed: seq<Message>, e: Message, rest: seq<Message>)
    requires cursor <= i < |local| && NoTextIn(local, cursor, i) && IsText(local[i])
    requires RetellsAll(local, cursor, reported) && reported != [] && RetellsAll(local, i + 1, reported[1..])
    requires Retells(local[i], reported[0])
    requires StandsFor(local[i], reported[0], e) && forall p :: p in passed ==> !IsText(p)
    requires StandForAll(local, i + 1, reported[1..], rest)
    ensures StandForAll(local, cursor, reported, passed + [e] + rest)
  {
    OneMoreStands(local, i, reported, passed, e, rest);
    SkipsToNext(local, cursor, i, reported, passed + [e] + rest);
  }

  /** If `rest` stands for the messages after the next text, `out` stands for all. */
  predicate Prepends(local: seq<Message>, cursor: nat, i: nat, reported: seq<Message>, rest: seq<Message>,
                     out: seq<Message>)
    requires cursor <= i < |local| && reported != []
  {
    StandForAll(local, i + 1, reported[1..], rest) ==> StandForAll(local, cursor, reported, out)
  }

  lemma {:induction false} FirstPrepends(local: seq<Message>, cursor: nat, i: nat, reported: seq<Message>,
                                         passed: seq<Message>, e: Message, rest: seq<Message>, out: seq<Message>)
    requires cursor <= i < |local| && NoTextIn(local, cursor, i) && IsText(local[i])
    requires RetellsAll(local, cursor, reported) && reported != [] && RetellsAll(local, i + 1, reported[1..])
    requires Retells(local[i], reported[0]) && out == passed + [e] + rest
    requires StandsFor(local[i], reported[0], e) && forall p :: p in passed ==> !IsText(p)
    ensures Prepends(local, cursor, i, reported, rest, out)
  {
    if StandForAll(local, i + 1, reported[1..], rest) {
      RetoldStep(local, cursor, i, reported, passed, e, rest);
    }
  }

  lemma {:induction false} NextPrepends(local: seq<Message>, cursor: nat, reported: seq<Message>) returns (i: nat)
    requires cursor <= |local| && RetellsAll(local, cursor, reported) && reported != []
    ensures cursor <= i < |local| && RetellsAll(local, i + 1, reported[1..])
    ensures Prepends(local, cursor, i, reported, Merged(local, i + 1, reported[1..]), Merged(local, cursor, reported))
  {
    i := NextRetold(local, cursor, reported);
    var passed, e := OneRetold(local, cursor, i, reported);
    FirstPrepends(local, cursor, i, reported, passed, e, Merged(local, i + 1, reported[1..]),
                  Merged(local, cursor, reported));
  }

  /** What the merge makes of the rest stands for it. */
  predicate IsRetold(local: seq<Message>, cursor: nat, reported: seq<Message>) {
    cursor <= |local| && StandForAll(local, cursor, reported, Merged(local, cursor, reported))
  }

  /** Up to the next text, and then it is enough that the rest is retold. */
  lemma {:induction false} NextStands(local: seq<Message>, cursor: nat, reported: seq<Message>)
    returns (next: nat, tail: seq<Message>)
    requires cursor <= |local| && RetellsAll(local, cursor, reported) && reported != []
    ensures cursor < next <= |local| && |tail| == |reported| - 1 && RetellsAll(local, next, tail)
    ensures IsRetold(local, next, tail) ==> IsRetold(local, cursor, reported)
  {
    hide Merged;
    hide RetellsAll;
    hide StandForAll;
    var i := NextPrepends(local, cursor, reported);
    next, tail := i + 1, reported[1..];
  }

  lemma {:induction false} RetoldFrom(local: seq<Message>, cursor: nat, reported: seq<Message>)
    requires cursor <= |local| && RetellsAll(local, cursor, reported)
    ensures IsRetold(local, cursor, reported)
    decreases |reported|
  {
    if reported == [] {
      NothingMoreStands(local, cursor);
    } else {
      var next, tail := NextStands(local, cursor, reported);
      RetoldFrom(local, next, tail);
    }
  }

  lemma {:induction false} StandsForIsText(m: Message, r: Message, e: Message)
    requires StandsFor(m, r, e) && IsText(m)
    ensures IsText(e)
  {
  }

  /** Reading the history of a chat the client watched: every prompt and every reply is there with
      the wording the client knows, in order, a prompt sent with files without the suffix, and
      every file of it stands with it. */
  lemma {:induction false} HistoryKeepsWordingAndFiles(c: Chat, reported: seq<Message>)
    requires RetellsAll(c.messages, 0, reported)
    ensures StandForAll(c.messages, 0, reported, TranscriptMerged(c, reported).messages)
  {
    RetoldFrom(c.messages, 0, reported);
  }
}
