/** `ORDER BY created_at DESC`: a newest-first ordering of log rows. Rows with
    equal `created_at` have no defined relative order in SQL, so the only
    requirement is that `created_at` never increases along the result. */
module LogOrdering {
  import opened WebhookLog

  /** `created_at` is non-increasing along `s`. */
  predicate NewestFirst(s: seq<LogEntry>) {
    forall i, j :: 0 <= i < j < |s| ==> s[i].createdAt >= s[j].createdAt
  }

  /** Places `l` into a newest-first sequence, keeping it newest-first. */
  function Insert(l: LogEntry, s: seq<LogEntry>): (r: seq<LogEntry>)
    requires NewestFirst(s)
    ensures NewestFirst(r)
    ensures multiset(r) == multiset(s) + multiset{l}
    ensures |r| == |s| + 1
    ensures r[0] == l || (s != [] && r[0] == s[0])
  {
    if s == [] then [l]
    else if l.createdAt >= s[0].createdAt then [l] + s
    else
      var tail := Insert(l, s[1..]);
      assert s == [s[0]] + s[1..];
      assert tail[0].createdAt <= s[0].createdAt;
      assert forall j :: 0 <= j < |tail| ==> tail[j].createdAt <= s[0].createdAt by {
        forall j | 0 <= j < |tail| ensures tail[j].createdAt <= s[0].createdAt {
          if j > 0 { assert tail[0].createdAt >= tail[j].createdAt; }
        }
      }
      [s[0]] + tail
  }

  /** The rows of `s` rearranged newest-first. */
  function SortNewestFirst(s: seq<LogEntry>): (r: seq<LogEntry>)
    ensures NewestFirst(r)
    ensures multiset(r) == multiset(s)
    ensures |r| == |s|
  {
    if s == [] then []
    else
      assert s == [s[0]] + s[1..];
      Insert(s[0], SortNewestFirst(s[1..]))
  }

  /** Any slice of a newest-first sequence is newest-first. */
  lemma SliceNewestFirst(s: seq<LogEntry>, lo: int, hi: int)
    requires NewestFirst(s)
    requires 0 <= lo <= hi <= |s|
    ensures NewestFirst(s[lo..hi])
  {
  }

}
