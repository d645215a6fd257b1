/** The usage counters of `analytics.json` (app.py:176-178 and 237-239). The
    file holds a JSON object; a missing or unreadable file reads as the empty
    object (utils.py:209-218), and a missing key counts as zero. */
module Analytics {

  /** The counters stored in the file, by name. */
  type Counters = map<string, int>

  const DocumentsProcessed: string := "documents_processed"
  const QuestionsAsked: string := "questions_asked"
  const SessionsStarted: string := "sessions_started"

  /** `analytics.get(key, 0)` */
  function Get(m: Counters, key: string): int {
    if key in m then m[key] else 0
  }

  /** `analytics[key] = analytics.get(key, 0) + 1`: the counter goes up by one,
      a missing counter starts at one, and no other counter changes. */
  function Bump(m: Counters, key: string): (r: Counters)
    ensures r.Keys == m.Keys + {key}
    ensures forall k :: k in m && k != key ==> r[k] == m[k]
  {
    m[key := Get(m, key) + 1]
  }

  /** Read back, a bumped counter is one more and every other reads as before. */
  lemma BumpGet(m: Counters, key: string, other: string)
    ensures Get(Bump(m, key), other) == Get(m, other) + (if other == key then 1 else 0)
  {
  }

  /** Bumping two counters gives the same file in either order. */
  lemma BumpCommutes(m: Counters, a: string, b: string)
    ensures Bump(Bump(m, a), b) == Bump(Bump(m, b), a)
  {
    if a != b {
      var x, y := Bump(Bump(m, a), b), Bump(Bump(m, b), a);
      assert x.Keys == y.Keys;
      forall k | k in x.Keys
        ensures x[k] == y[k]
      {
        BumpGet(m, a, k);
        BumpGet(Bump(m, a), b, k);
        BumpGet(m, b, k);
        BumpGet(Bump(m, b), a, k);
      }
    }
  }

  /** `n` read-modify-write increments of one counter in a row. */
  function BumpTimes(m: Counters, key: string, n: nat): Counters {
    if n == 0 then m else Bump(BumpTimes(m, key, n - 1), key)
  }

  /** After `n` increments the counter reads `n` more and no other counter
      has changed. */
  lemma {:induction false} BumpTimesGet(m: Counters, key: string, n: nat, other: string)
    ensures Get(BumpTimes(m, key, n), other) == Get(m, other) + (if other == key then n else 0)
  {
    if n > 0 {
      BumpTimesGet(m, key, n - 1, other);
      BumpGet(BumpTimes(m, key, n - 1), key, other);
    }
  }

  /** The app only ever increments `documents_processed` and
      `questions_asked`, so `sessions_started`, which the sidebar shows,
      keeps whatever the file held. */
  lemma SessionsNeverStarted(m: Counters)
    ensures Get(Bump(m, DocumentsProcessed), SessionsStarted) == Get(m, SessionsStarted)
    ensures Get(Bump(m, QuestionsAsked), SessionsStarted) == Get(m, SessionsStarted)
  {
    BumpGet(m, DocumentsProcessed, SessionsStarted);
    BumpGet(m, QuestionsAsked, SessionsStarted);
  }
}
