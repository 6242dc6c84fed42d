// The router closure of main.go: exact health paths first, then three unanchored
// regular expressions `/queues/.*/publish`, `/queues/.*/subscribe` and `/queues/.*/purge`,
// tried in that order. Only the URL path is consulted.
module Routing {
  import opened Text

  datatype Route = Health | Publish | Subscribe | Purge | NotFound

  const QueuesPrefix := "/queues/"
  const PublishSuffix := "/publish"
  const SubscribeSuffix := "/subscribe"
  const PurgeSuffix := "/purge"

  /** `op` occurs at or after index `k` with no newline between `k` and that occurrence. */
  ghost predicate SuffixAfter(s: string, k: nat, op: string)
  {
    exists j :: k <= j && OccursAt(s, op, j) && '\n' !in s[k..j]
  }

  /**
   * The regular expression `/queues/.*` followed by `op` matches somewhere in `path`:
   * "/queues/" occurs at some `i`, and `op` occurs at or after its end with no newline
   * in the gap (RE2's `.` does not match '\n'). The gap may be empty.
   */
  ghost predicate MatchesPattern(path: string, op: string)
  {
    exists i :: OccursAt(path, QueuesPrefix, i) && SuffixAfter(path, i + |QueuesPrefix|, op)
  }

  /** Looks for `op` at or after index `k`, stopping at the first newline. */
  function SuffixFrom(s: string, k: nat, op: string): bool
    decreases |s| - k
  {
    if k + |op| > |s| then false
    else if s[k..k + |op|] == op then true
    else if s[k] == '\n' then false
    else SuffixFrom(s, k + 1, op)
  }

  /** Tries every start position of "/queues/" at or after `i`. */
  function MatchFrom(s: string, i: nat, op: string): bool
    decreases |s| - i
  {
    if i + |QueuesPrefix| > |s| then false
    else (s[i..i + |QueuesPrefix|] == QueuesPrefix && SuffixFrom(s, i + |QueuesPrefix|, op))
         || MatchFrom(s, i + 1, op)
  }

  /**
   * `regexp.MatchString` for `/queues/.*` followed by `op`: the computed scan agrees with the
   * pattern's meaning, in both directions.
   */
  function Matches(path: string, op: string): (b: bool)
    ensures b <==> MatchesPattern(path, op)
  {
    MatchFromMeansPattern(path, 0, op);
    MatchFrom(path, 0, op)
  }

  lemma {:induction false} SuffixFromMeansPattern(s: string, k: nat, op: string)
    ensures SuffixFrom(s, k, op) <==> SuffixAfter(s, k, op)
    decreases |s| - k
  {
    if k + |op| > |s| {
    } else if s[k..k + |op|] == op {
      assert OccursAt(s, op, k) && s[k..k] == [];
    } else if s[k] == '\n' {
      forall j | k <= j && OccursAt(s, op, j)
        ensures '\n' in s[k..j]
      {
        assert j != k;
        assert s[k..j][0] == '\n';
      }
    } else {
      SuffixFromMeansPattern(s, k + 1, op);
      forall j | k + 1 <= j <= |s|
        ensures ('\n' in s[k..j]) <==> ('\n' in s[k + 1..j])
      {
        assert s[k..j] == [s[k]] + s[k + 1..j];
      }
      assert !OccursAt(s, op, k);
    }
  }

  lemma {:induction false} MatchFromMeansPattern(s: string, i: nat, op: string)
    ensures MatchFrom(s, i, op) <==>
            exists i' :: i <= i' && OccursAt(s, QueuesPrefix, i') && SuffixAfter(s, i' + |QueuesPrefix|, op)
    decreases |s| - i
  {
    if i + |QueuesPrefix| <= |s| {
      SuffixFromMeansPattern(s, i + |QueuesPrefix|, op);
      MatchFromMeansPattern(s, i + 1, op);
      if s[i..i + |QueuesPrefix|] == QueuesPrefix && SuffixFrom(s, i + |QueuesPrefix|, op) {
        assert OccursAt(s, QueuesPrefix, i);
      }
      forall i' | i <= i' && OccursAt(s, QueuesPrefix, i') && SuffixAfter(s, i' + |QueuesPrefix|, op)
        ensures MatchFrom(s, i, op)
      {
        if i' == i {
          assert s[i..i + |QueuesPrefix|] == QueuesPrefix;
        }
      }
    }
  }

  /** The two paths the router compares exactly, one after the other. */
  predicate IsHealthPath(path: string)
  {
    path == "/health" || path == "/healthz"
  }

  /**
   * The route the router closure picks for `r.URL.Path`. Exactly the two health paths go to
   * Health; otherwise the publish pattern wins over subscribe, subscribe over purge, and an
   * unmatched path is NotFound.
   */
  function Classify(path: string): (route: Route)
    ensures route == Health <==> IsHealthPath(path)
    ensures route == Publish <==>
            !IsHealthPath(path) && MatchesPattern(path, PublishSuffix)
    ensures route == Subscribe <==>
            !IsHealthPath(path) && !MatchesPattern(path, PublishSuffix) &&
            MatchesPattern(path, SubscribeSuffix)
    ensures route == Purge <==>
            !IsHealthPath(path) && !MatchesPattern(path, PublishSuffix) &&
            !MatchesPattern(path, SubscribeSuffix) && MatchesPattern(path, PurgeSuffix)
    ensures route == NotFound <==>
            !IsHealthPath(path) && !MatchesPattern(path, PublishSuffix) &&
            !MatchesPattern(path, SubscribeSuffix) && !MatchesPattern(path, PurgeSuffix)
  {
    if IsHealthPath(path) then Health
    else if Matches(path, PublishSuffix) then Publish
    else if Matches(path, SubscribeSuffix) then Subscribe
    else if Matches(path, PurgeSuffix) then Purge
    else NotFound
  }

  predicate IsQueueRoute(route: Route)
  {
    route == Publish || route == Subscribe || route == Purge
  }

  /** `strings.Split(path, "/")[2]`. */
  function QueueName(path: string): (name: string)
    requires |Split(path, '/')| >= 3
    ensures '/' !in name
  {
    SplitPiecesLackSeparator(path, '/');
    Split(path, '/')[2]
  }

  lemma PrefixHasTwoSlashes(path: string, i: int)
    requires OccursAt(path, QueuesPrefix, i)
    ensures Count(path, '/') >= 2
  {
    var before, after := path[..i], path[i + |QueuesPrefix|..];
    assert path == before + QueuesPrefix + after;
    CountAppend(before + QueuesPrefix, after, '/');
    CountAppend(before, QueuesPrefix, '/');
    assert Count(QueuesPrefix, '/') == 2;
  }

  /** Any path routed to a queue handler holds "/queues/", so it splits into at least three pieces. */
  lemma QueueRouteHasQueueName(path: string)
    requires IsQueueRoute(Classify(path))
    ensures |Split(path, '/')| >= 3
  {
    var op := if Classify(path) == Publish then PublishSuffix
              else if Classify(path) == Subscribe then SubscribeSuffix
              else PurgeSuffix;
    assert MatchesPattern(path, op);
    var i :| OccursAt(path, QueuesPrefix, i) && SuffixAfter(path, i + |QueuesPrefix|, op);
    PrefixHasTwoSlashes(path, i);
  }

  /** The first two pieces of "/queues/" + `tail` are "" and "queues". */
  lemma SplitQueuesPrefix(tail: string)
    ensures Split(QueuesPrefix + tail, '/') == ["", "queues"] + Split(tail, '/')
  {
    var x := "queues/" + tail;
    assert Split(QueuesPrefix + tail, '/') == [""] + Split(x, '/') by {
      assert QueuesPrefix + tail == "" + ['/'] + x;
      SplitAfterFirst("", x, '/');
    }
    assert Split(x, '/') == ["queues"] + Split(tail, '/') by {
      assert x == "queues" + ['/'] + tail;
      SplitAfterFirst("queues", tail, '/');
    }
    assert [""] + (["queues"] + Split(tail, '/')) == ["", "queues"] + Split(tail, '/');
  }

  /** For `/queues/NAME` followed by nothing or by a further segment, the queue name is NAME. */
  lemma QueueNameOf(name: string, rest: string)
    requires '/' !in name
    requires rest == [] || rest[0] == '/'
    ensures |Split(QueuesPrefix + name + rest, '/')| >= 3
    ensures QueueName(QueuesPrefix + name + rest) == name
  {
    assert QueuesPrefix + name + rest == QueuesPrefix + (name + rest);
    SplitQueuesPrefix(name + rest);
    FirstPiece(name, rest, '/');
  }

  /** "/queues//publish" routes to Publish (the gap between "/queues/" and "/publish" is empty)... */
  lemma EmptySegmentRoutes()
    ensures Classify("/queues//publish") == Publish
  {
    var path := "/queues//publish";
    assert MatchesPattern(path, PublishSuffix) by {
      assert path == QueuesPrefix + "" + PublishSuffix;
      assert path[0..8] == QueuesPrefix && path[8..16] == PublishSuffix;
      assert OccursAt(path, QueuesPrefix, 0) && OccursAt(path, PublishSuffix, 8);
      assert path[8..8] == [];
      assert SuffixAfter(path, 8, PublishSuffix);
    }
  }

  /** ... and names the empty queue. */
  lemma EmptyQueueName()
    ensures QueueName("/queues//publish") == ""
  {
    assert "/queues//publish" == QueuesPrefix + "" + PublishSuffix;
    QueueNameOf("", PublishSuffix);
  }

  /** The match is unanchored at both ends: a prefix before "/queues/" and text after "/publish" are allowed. */
  lemma UnanchoredMatch()
    ensures Classify("/x/queues/a/publish-many") == Publish
  {
    var path := "/x/queues/a/publish-many";
    assert MatchesPattern(path, PublishSuffix) by {
      assert path == "/x" + QueuesPrefix + "a/publish-many";
      assert path[2..10] == QueuesPrefix;
      assert OccursAt(path, QueuesPrefix, 2);
      assert OccursAt(path, PublishSuffix, 11) && path[10..11] == "a";
      assert SuffixAfter(path, 10, PublishSuffix);
    }
  }

  /**
   * The name is taken positionally, so a path with a leading segment before "/queues/"
   * (which still routes, the match being unanchored) names the queue "queues".
   */
  lemma PositionalQueueName(first: string, tail: string)
    requires '/' !in first
    ensures |Split("/" + first + QueuesPrefix + tail, '/')| >= 3
    ensures QueueName("/" + first + QueuesPrefix + tail) == "queues"
  {
    var path := "/" + first + QueuesPrefix + tail;
    var rest := "queues/" + tail;
    var afterFirst := first + ['/'] + rest;
    assert Split(path, '/') == [""] + Split(afterFirst, '/') by {
      assert path == "" + ['/'] + afterFirst;
      SplitAfterFirst("", afterFirst, '/');
    }
    assert Split(afterFirst, '/') == [first] + Split(rest, '/') by {
      SplitAfterFirst(first, rest, '/');
    }
    assert Split(rest, '/')[0] == "queues" by {
      assert rest == "queues" + ("/" + tail);
      FirstPiece("queues", "/" + tail, '/');
    }
  }

  /**
   * Publish is tried first: a path matching both the publish and the subscribe pattern is a
   * publish. No health path holds "/queues/", so none is excluded.
   */
  lemma PublishBeforeSubscribe(path: string)
    requires MatchesPattern(path, PublishSuffix) && MatchesPattern(path, SubscribeSuffix)
    ensures Classify(path) == Publish
  {
    var i :| OccursAt(path, QueuesPrefix, i) && SuffixAfter(path, i + |QueuesPrefix|, PublishSuffix);
    var j :| i + |QueuesPrefix| <= j && OccursAt(path, PublishSuffix, j) && '\n' !in path[i + |QueuesPrefix|..j];
    assert |path| >= |QueuesPrefix| + |PublishSuffix|;
  }

  /** "/queues/a/subscribe/publish" matches the subscribe pattern ... */
  lemma SubscribeSegmentMatches()
    ensures MatchesPattern("/queues/a/subscribe/publish", SubscribeSuffix)
  {
    var path := "/queues/a/subscribe/publish";
    assert path == QueuesPrefix + "a" + SubscribeSuffix + PublishSuffix;
    assert path[0..8] == QueuesPrefix;
    assert OccursAt(path, QueuesPrefix, 0);
    assert path[9..19] == SubscribeSuffix && path[8..9] == "a";
    assert OccursAt(path, SubscribeSuffix, 9);
    assert SuffixAfter(path, 8, SubscribeSuffix);
  }

  /** ... and the publish pattern ... */
  lemma PublishSegmentMatches()
    ensures MatchesPattern("/queues/a/subscribe/publish", PublishSuffix)
  {
    var path := "/queues/a/subscribe/publish";
    assert path == QueuesPrefix + "a/subscribe" + PublishSuffix;
    assert path[0..8] == QueuesPrefix;
    assert OccursAt(path, QueuesPrefix, 0);
    assert path[19..27] == PublishSuffix && path[8..19] == "a/subscribe";
    assert OccursAt(path, PublishSuffix, 19);
    assert SuffixAfter(path, 8, PublishSuffix);
  }

  /** ... so it routes to Publish. */
  lemma SubscribeSegmentPublishes()
    ensures MatchesPattern("/queues/a/subscribe/publish", SubscribeSuffix)
    ensures Classify("/queues/a/subscribe/publish") == Publish
  {
    SubscribeSegmentMatches();
    PublishSegmentMatches();
    PublishBeforeSubscribe("/queues/a/subscribe/publish");
  }

  /** "/queues/publish" matches nothing: the two slashes of "/queues/" and "/publish" cannot be shared. */
  lemma NoSharedSlash()
    ensures Classify("/queues/publish") == NotFound
  {
    var path := "/queues/publish";
    assert forall k :: 0 <= k < |path| && path[k] == '/' ==> k == 0 || k == 7;
    forall i | OccursAt(path, QueuesPrefix, i)
      ensures i == 0
    {
      assert path[i..i + 8][0] == path[i] && path[i..i + 8][7] == path[i + 7];
    }
    forall op, j | op in [PublishSuffix, SubscribeSuffix, PurgeSuffix] && OccursAt(path, op, j)
      ensures j < 8
    {
      assert path[j..j + |op|][0] == path[j] && op[0] == '/';
    }
  }

  /** A newline between "/queues/" and "/publish" defeats the match, as RE2's `.` does not match it. */
  lemma NewlineBlocksMatch()
    ensures Classify("/queues/a\n/publish") == NotFound
  {
    var path := "/queues/a\n/publish";
    assert forall k :: 0 <= k < |path| && path[k] == '/' ==> k == 0 || k == 7 || k == 10;
    forall i | OccursAt(path, QueuesPrefix, i)
      ensures i == 0
    {
      assert path[i..i + 8][0] == path[i] && path[i..i + 8][7] == path[i + 7];
    }
    forall op, j | op in [PublishSuffix, SubscribeSuffix, PurgeSuffix] && 8 <= j && OccursAt(path, op, j)
      ensures '\n' in path[8..j]
    {
      assert path[j..j + |op|][0] == path[j] && op[0] == '/';
      assert j == 10;
      assert path[9] == '\n' && path[8..j][1] == path[9];
    }
  }
}
