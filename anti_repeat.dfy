/**
 * The obstacle selection rule of ObjectPool.GetObstacleFromPool: which queued obstacle is
 * taken when the head repeats the last spawned type, what becomes of the entries passed
 * over, and how a type is drawn from the catalogue when the queue is empty.
 *
 * Obstacle types are compared by name (the clone name without its "(Clone)" suffix); the
 * empty string stands for "nothing spawned yet" (string.IsNullOrEmpty).
 */
module AntiRepeat {

  /** How many further queue entries (or catalogue draws) the rule tries before giving up. */
  const RetryBudget: nat := 5

  function Min(a: int, b: int): int { if a <= b then a else b }

  /** No element occurs twice. */
  predicate Distinct<T(==)>(s: seq<T>) {
    forall i, j :: 0 <= i < j < |s| ==> s[i] != s[j]
  }

  /**
   * The retry loop runs only when more than 2 entries remain after the head has been
   * dequeued and a last type is known.
   */
  predicate Guarded(types: seq<string>, last: string) {
    |types| - 1 > 2 && last != ""
  }

  /** Index of the last queue entry the retry loop may dequeue. */
  function Limit(n: nat): (l: nat)
    requires n > 0
    ensures l < n && l <= RetryBudget
    ensures n > 3 ==> 3 <= l
  {
    Min(RetryBudget, n - 1)
  }

  /** The first entry from i up to limit whose type is not last; limit itself when there is none. */
  function FirstDifferent(types: seq<string>, last: string, i: nat, limit: nat): (r: nat)
    requires 1 <= i <= limit < |types|
    ensures i <= r <= limit
    ensures forall j :: i <= j < r ==> types[j] == last
    ensures types[r] != last || r == limit
    decreases limit - i
  {
    if types[i] != last || i == limit then i else FirstDifferent(types, last, i + 1, limit)
  }

  /**
   * Position, in the obstacle queue whose entry types are `types`, of the object
   * GetObstacleFromPool hands out. The head is taken unless the loop is guarded and the head
   * repeats `last`; then the first entry of another type among the next RetryBudget ones is
   * taken, or the last one examined when all of them repeat.
   */
  function ChooseIndex(types: seq<string>, last: string): (k: nat)
    requires |types| > 0
    ensures k < |types|
    ensures k == 0 <==> !(Guarded(types, last) && types[0] == last)
    ensures k > 0 ==> k <= Limit(|types|) && forall j :: 0 <= j < k ==> types[j] == last
    ensures k > 0 && types[k] == last ==> k == Limit(|types|)
  {
    if Guarded(types, last) && types[0] == last then FirstDifferent(types, last, 1, Limit(|types|)) else 0
  }

  /** The selection avoids a repeat whenever one of the examined entries has another type. */
  lemma ChooseIndexAvoidsRepeat(types: seq<string>, last: string, j: nat)
    requires Guarded(types, last) && types[0] == last
    requires 1 <= j <= Limit(|types|) && types[j] != last
    ensures types[ChooseIndex(types, last)] != last
    ensures ChooseIndex(types, last) <= j
  {
  }

  /** Scenario: queue types [A,A,A,B] after last A yields the B at index 3. */
  lemma ScenarioRetryFindsOther()
    ensures ChooseIndex(["A", "A", "A", "B"], "A") == 3
  {
    var t := ["A", "A", "A", "B"];
    assert Guarded(t, "A") && Limit(4) == 3;
    assert FirstDifferent(t, "A", 3, 3) == 3;
    assert FirstDifferent(t, "A", 2, 3) == 3;
  }

  /** Scenario: with only [A,A] queued the length guard skips the retry and the head is taken. */
  lemma ScenarioShortQueueRepeats()
    ensures ChooseIndex(["A", "A"], "A") == 0
  {
  }

  /** The retry loop stops at the first entry of another type. */
  lemma ChooseFirstOther(types: seq<string>, last: string, a: nat)
    requires Guarded(types, last) && a + 1 <= Limit(|types|)
    requires forall j :: 0 <= j <= a ==> types[j] == last
    requires types[a + 1] != last
    ensures ChooseIndex(types, last) == a + 1
  {
  }

  /** When every examined entry repeats, the last one examined is taken. */
  lemma ChooseLastExamined(types: seq<string>, last: string)
    requires Guarded(types, last)
    requires forall j :: 0 <= j <= Limit(|types|) ==> types[j] == last
    ensures ChooseIndex(types, last) == Limit(|types|)
  {
    var k := ChooseIndex(types, last);
    assert types[k] == last;
  }

  /** s with every occurrence of x removed, order kept. */
  function Without<T(==)>(s: seq<T>, x: T): (r: seq<T>)
    ensures |r| <= |s|
    ensures forall i :: 0 <= i < |r| ==> r[i] in s && r[i] != x
    ensures forall i :: 0 <= i < |s| && s[i] != x ==> s[i] in r
    ensures x !in s ==> r == s
    decreases |s|
  {
    if s == [] then []
    else
      assert s == s[..|s| - 1] + [s[|s| - 1]];
      Without(s[..|s| - 1], x) + (if s[|s| - 1] != x then [s[|s| - 1]] else [])
  }

  /** Without over a prefix grows one entry at a time. */
  lemma WithoutSnoc<T>(s: seq<T>, i: nat, x: T)
    requires i < |s|
    ensures Without(s[..i + 1], x) == Without(s[..i], x) + (if s[i] != x then [s[i]] else [])
  {
    assert s[..i + 1][..i] == s[..i];
  }

  /**
   * The queue after the object at index k has been taken: the entries behind the ones that
   * were looked at keep their order, and the passed-over entries follow at the tail in the
   * order they were dequeued. Entries identical to the taken object are not put back.
   */
  function Remaining<T(==)>(q: seq<T>, k: nat): seq<T>
    requires k < |q|
  {
    q[k + 1..] + Without(q[..k], q[k])
  }

  /** On a queue without duplicates exactly one element, the chosen one, leaves the queue. */
  lemma RemainingRemovesExactlyOne<T>(q: seq<T>, k: nat)
    requires k < |q| && Distinct(q)
    ensures Remaining(q, k) == q[k + 1..] + q[..k]
    ensures |Remaining(q, k)| == |q| - 1
    ensures multiset(Remaining(q, k)) + multiset{q[k]} == multiset(q)
    ensures Distinct(Remaining(q, k))
  {
    assert q[k] !in q[..k];
    assert q == q[..k] + [q[k]] + q[k + 1..];
    RotationDistinct(q, k);
  }

  /** Moving the prefix before k behind the suffix after it keeps a queue duplicate-free. */
  lemma RotationDistinct<T>(q: seq<T>, k: nat)
    requires k < |q| && Distinct(q)
    ensures Distinct(q[k + 1..] + q[..k])
  {
    var r := q[k + 1..] + q[..k];
    forall i, j | 0 <= i < j < |r| ensures r[i] != r[j] {
      var qi := if i < |q| - k - 1 then k + 1 + i else i - (|q| - k - 1);
      var qj := if j < |q| - k - 1 then k + 1 + j else j - (|q| - k - 1);
      assert r[i] == q[qi] && r[j] == q[qj] && qi != qj;
    }
  }

  /** On a queue without duplicates the remaining entries are the other entries of the queue. */
  lemma RemainingMembers<T>(q: seq<T>, k: nat)
    requires k < |q| && Distinct(q)
    ensures Distinct(Remaining(q, k))
    ensures forall e :: e in Remaining(q, k) <==> e in q && e != q[k]
  {
    assert q[k] !in q[..k];
    assert Remaining(q, k) == q[k + 1..] + q[..k];
    RotationDistinct(q, k);
    assert q == q[..k] + [q[k]] + q[k + 1..];
    assert q[k] !in q[k + 1..];
  }

  // ---------------------------------------------------------------------------------------
  // Drawing a type from the catalogue when the obstacle queue is empty

  /**
   * The draw whose pick is kept by the do-while loop that starts at draw a: the first draw
   * from a on whose type is not last, or the last draw the retry budget allows.
   */
  function KeptDraw(types: seq<string>, last: string, picks: nat -> nat, a: nat): (r: nat)
    requires |types| > 0 && a < RetryBudget
    ensures a <= r < RetryBudget
    ensures forall j :: a <= j < r ==> types[picks(j) % |types|] == last
    ensures types[picks(r) % |types|] != last || r == RetryBudget - 1
    decreases RetryBudget - a
  {
    if types[picks(a) % |types|] != last || a == RetryBudget - 1 then a
    else KeptDraw(types, last, picks, a + 1)
  }

  /**
   * Catalogue index of the obstacle created when the queue is empty; picks(j) is the j-th
   * random index drawn. With more than one type and a known last type, up to RetryBudget
   * draws are made and the first of another type is kept; otherwise one draw decides.
   */
  function MissIndex(types: seq<string>, last: string, picks: nat -> nat): (i: nat)
    requires |types| > 0
    ensures i < |types|
    ensures !(|types| > 1 && last != "") ==> i == picks(0) % |types|
    ensures |types| > 1 && last != "" ==> exists j :: 0 <= j < RetryBudget && i == picks(j) % |types|
  {
    if |types| > 1 && last != "" then picks(KeptDraw(types, last, picks, 0)) % |types|
    else picks(0) % |types|
  }

  /** If any of the RetryBudget draws names another type, the created obstacle is not a repeat. */
  lemma MissIndexAvoidsRepeat(types: seq<string>, last: string, picks: nat -> nat, j: nat)
    requires |types| > 1 && last != ""
    requires j < RetryBudget && types[picks(j) % |types|] != last
    ensures types[MissIndex(types, last, picks)] != last
  {
  }
}
