/**
 * The `init` function of the config package: it collects the queue names from the
 * environment into `QUEUES`, complains when there are none, parses `PORT` (panicking when
 * it is not an integer) and copies `KEWPIE_BACKEND`. The environment (the entries of
 * `os.Environ()`, each "NAME=value") and the integer parser are parameters.
 */
module Config {
  import opened Wrappers
  import opened Text

  const QueueMarker := "KEWPIE_QUEUE_"
  const NoQueuesMessage := "ERROR no queues configured. Set env vars in the form KEWPIE_QUEUE_FOO=foo_bar"
  const BadPortMessage := "ERROR PORT is not a valid integer"

  /** Every entry that mentions the marker has an '=' (entries of `os.Environ()` are "NAME=value"). */
  predicate WellFormed(environ: seq<string>)
  {
    forall k :: 0 <= k < |environ| && Contains(environ[k], QueueMarker) ==> '=' in environ[k]
  }

  /** `strings.Split(entry, "=")[1]`: the text between the first and the second '='. */
  function QueueValue(entry: string): (value: string)
    requires '=' in entry
    ensures '=' !in value
  {
    SplitPiecesLackSeparator(entry, '=');
    Split(entry, '=')[1]
  }

  /** The queue an entry contributes, if any. */
  function Contribution(entry: string): (queues: seq<string>)
    requires Contains(entry, QueueMarker) ==> '=' in entry
    ensures |queues| <= 1
    ensures queues != [] <==> Contains(entry, QueueMarker)
    ensures queues != [] ==> '=' !in queues[0]
  {
    if Contains(entry, QueueMarker) then [QueueValue(entry)] else []
  }

  /** The names the loop appends to `QUEUES`, in environment order. */
  function QueuesOf(environ: seq<string>): (queues: seq<string>)
    requires WellFormed(environ)
    ensures |queues| <= |environ|
  {
    if environ == [] then []
    else Contribution(environ[0]) + QueuesOf(environ[1..])
  }

  lemma WellFormedParts(a: seq<string>, b: seq<string>)
    ensures WellFormed(a + b) <==> WellFormed(a) && WellFormed(b)
  {
    if WellFormed(a) && WellFormed(b) {
      forall k | 0 <= k < |a + b| && Contains((a + b)[k], QueueMarker)
        ensures '=' in (a + b)[k]
      {
        if k >= |a| {
          assert (a + b)[k] == b[k - |a|];
        }
      }
    }
    if WellFormed(a + b) {
      forall k | 0 <= k < |a| && Contains(a[k], QueueMarker)
        ensures '=' in a[k]
      {
        assert (a + b)[k] == a[k];
      }
      forall k | 0 <= k < |b| && Contains(b[k], QueueMarker)
        ensures '=' in b[k]
      {
        assert (a + b)[|a| + k] == b[k];
      }
    }
  }

  /** The contributions of two stretches of the environment are concatenated in order. */
  lemma {:induction false} QueuesOfAppend(a: seq<string>, b: seq<string>)
    requires WellFormed(a + b)
    ensures WellFormed(a) && WellFormed(b)
    ensures QueuesOf(a + b) == QueuesOf(a) + QueuesOf(b)
  {
    WellFormedParts(a, b);
    if a != [] {
      assert (a + b)[1..] == a[1..] + b;
      WellFormedParts(a[1..], b);
      QueuesOfAppend(a[1..], b);
    } else {
      assert a + b == b;
    }
  }

  /** No queue name in the list holds an '=': each one is cut at the entry's second '='. */
  lemma {:induction false} QueuesLackSeparator(environ: seq<string>)
    requires WellFormed(environ)
    ensures forall k :: 0 <= k < |QueuesOf(environ)| ==> '=' !in QueuesOf(environ)[k]
  {
    if environ != [] {
      QueuesLackSeparator(environ[1..]);
      var head, tail := Contribution(environ[0]), QueuesOf(environ[1..]);
      forall k | 0 <= k < |head + tail|
        ensures '=' !in (head + tail)[k]
      {
        if k >= |head| {
          assert (head + tail)[k] == tail[k - |head|];
        }
      }
    }
  }

  /** Entries that do not mention the marker contribute nothing. */
  lemma {:induction false} NoMarkerNoQueues(environ: seq<string>)
    requires forall k :: 0 <= k < |environ| ==> !Contains(environ[k], QueueMarker)
    ensures WellFormed(environ) && QueuesOf(environ) == []
  {
    if environ != [] {
      NoMarkerNoQueues(environ[1..]);
    }
  }

  /**
   * A name is in the list exactly when some entry mentions "KEWPIE_QUEUE_" anywhere (as a
   * name prefix or not) and that entry's second '='-separated piece is the name.
   */
  lemma {:induction false} QueuesOfMembers(environ: seq<string>, name: string)
    requires WellFormed(environ)
    ensures name in QueuesOf(environ) <==>
            exists k :: 0 <= k < |environ| && Contains(environ[k], QueueMarker) && QueueValue(environ[k]) == name
  {
    if environ != [] {
      QueuesOfMembers(environ[1..], name);
      if name in QueuesOf(environ[1..]) {
        var k :| 0 <= k < |environ[1..]| && Contains(environ[1..][k], QueueMarker) && QueueValue(environ[1..][k]) == name;
        assert environ[k + 1] == environ[1..][k];
      }
      forall k | 0 < k < |environ| && Contains(environ[k], QueueMarker) && QueueValue(environ[k]) == name
        ensures name in QueuesOf(environ[1..])
      {
        assert environ[1..][k - 1] == environ[k];
      }
    }
  }

  /** The marker counts wherever it occurs in the entry, including inside the value. */
  lemma MarkerAnywhere(entry: string)
    requires Contains(entry, QueueMarker) ==> '=' in entry
    ensures Contribution(entry) != [] <==> exists i :: OccursAt(entry, QueueMarker, i)
  {
    ContainsMeansOccurs(entry, QueueMarker);
  }

  /** The contributed name stops at the second '=', so a value that itself holds '=' is cut short. */
  lemma QueueValueOf(name: string, value: string, rest: string)
    requires '=' !in name && '=' !in value
    requires rest == [] || rest[0] == '='
    ensures '=' in name + "=" + value + rest
    ensures QueueValue(name + "=" + value + rest) == value
  {
    var entry := name + "=" + value + rest;
    assert entry == name + ['='] + (value + rest);
    assert entry[|name|] == '=';
    SplitAfterFirst(name, value + rest, '=');
    FirstPiece(value, rest, '=');
  }

  /** The name of an entry: the text before its first '='. */
  function EntryName(entry: string): string
    requires '=' in entry
  {
    entry[..IndexOf(entry, '=')]
  }

  /** `os.Getenv(key)`: the value of the first entry named `key`, or "" when there is none. */
  function Getenv(environ: seq<string>, key: string): (value: string)
    ensures (forall k :: 0 <= k < |environ| && '=' in environ[k] ==> EntryName(environ[k]) != key) ==> value == ""
  {
    if environ == [] then ""
    else if '=' in environ[0] && EntryName(environ[0]) == key then environ[0][IndexOf(environ[0], '=') + 1..]
    else Getenv(environ[1..], key)
  }

  /**
   * When entry `k` is `key=value` and no earlier entry is named `key`, `Getenv` yields `value`,
   * whatever `value` holds (it may contain '=', unlike a queue value).
   */
  lemma {:induction false} GetenvFinds(environ: seq<string>, k: nat, key: string, value: string)
    requires k < |environ| && environ[k] == key + "=" + value && '=' !in key
    requires forall j :: 0 <= j < k && '=' in environ[j] ==> EntryName(environ[j]) != key
    ensures Getenv(environ, key) == value
  {
    if k == 0 {
      var entry := environ[0];
      assert entry == key + ['='] + value;
      assert entry[|key|] == '=' && entry[..|key|] == key;
      assert IndexOf(entry, '=') == |key|;
    } else {
      assert '=' in environ[0] ==> EntryName(environ[0]) != key;
      GetenvFinds(environ[1..], k - 1, key, value);
    }
  }

  /** The package-level configuration variables. */
  class Settings {
    var queues: seq<string>
    var backend: string
    var port: int

    constructor ()
      ensures queues == [] && backend == "" && port == 0
    {
      queues, backend, port := [], "", 0;
    }

    /**
     * `init`. `atoi` stands for `strconv.Atoi` and gives the value it returns with its error.
     * The returned `panicked` is the error `init` panics with; `errorLines` are the ERROR
     * lines printed on the way. An empty queue list only adds an error line.
     */
    method Init(environ: seq<string>, atoi: string -> (int, Option<string>))
      returns (panicked: Option<string>, errorLines: seq<string>)
      requires WellFormed(environ)
      modifies this
      ensures queues == old(queues) + QueuesOf(environ)
      ensures (port, panicked) == atoi(Getenv(environ, "PORT"))
      ensures backend == if panicked.Some? then old(backend) else Getenv(environ, "KEWPIE_BACKEND")
      ensures errorLines == (if |queues| == 0 then [NoQueuesMessage] else []) +
                            (if panicked.Some? then [BadPortMessage] else [])
    {
      for i := 0 to |environ|
        invariant WellFormed(environ[..i])
        invariant queues == old(queues) + QueuesOf(environ[..i])
        invariant backend == old(backend)
      {
        assert environ[..i + 1] == environ[..i] + [environ[i]];
        WellFormedParts(environ[..i] + [environ[i]], environ[i + 1..]);
        assert environ[..i] + [environ[i]] + environ[i + 1..] == environ;
        QueuesOfAppend(environ[..i], [environ[i]]);
        if Contains(environ[i], QueueMarker) {
          queues := queues + [Split(environ[i], '=')[1]];
        }
      }
      assert environ[..|environ|] == environ;

      errorLines := [];
      if |queues| == 0 {
        errorLines := errorLines + [NoQueuesMessage];
      }

      var parsed := atoi(Getenv(environ, "PORT"));
      var err := parsed.1;
      port := parsed.0;
      if err.Some? {
        errorLines := errorLines + [BadPortMessage];
        return err, errorLines;
      }

      backend := Getenv(environ, "KEWPIE_BACKEND");
      return None, errorLines;
    }
  }
}
