/** Orderings of string keys used when the dashboard merges and sorts tables:
    Python's code-point order on `str` (how an outer merge orders its keys)
    and the calendar order of month names (how the monthly summary is sorted). */
module Keys {

  /** Python's `a < b` on strings: lexicographic by code point, a proper
      prefix coming first. */
  predicate LexLess(a: string, b: string)
  {
    |b| > 0 && (|a| == 0 || a[0] < b[0] || (a[0] == b[0] && LexLess(a[1..], b[1..])))
  }

  lemma {:induction false} LexIrreflexive(a: string)
    ensures !LexLess(a, a)
  {
    if |a| > 0 {
      LexIrreflexive(a[1..]);
    }
  }

  lemma {:induction false} LexTransitive(a: string, b: string, c: string)
    requires LexLess(a, b) && LexLess(b, c)
    ensures LexLess(a, c)
  {
    if |a| > 0 && a[0] == b[0] && b[0] == c[0] {
      LexTransitive(a[1..], b[1..], c[1..]);
    }
  }

  lemma {:induction false} LexTotal(a: string, b: string)
    requires a != b
    ensures LexLess(a, b) || LexLess(b, a)
  {
    if |a| > 0 && |b| > 0 && a[0] == b[0] {
      LexTotal(a[1..], b[1..]);
    }
  }

  /** `list(calendar.month_name)[1:]` */
  const MonthNames: seq<string> :=
    ["January", "February", "March", "April", "May", "June", "July",
     "August", "September", "October", "November", "December"]

  function RankFrom(s: string, i: nat): (r: nat)
    requires i <= 12
    ensures i <= r <= 12
    ensures r < 12 ==> MonthNames[r] == s
    ensures r == 12 ==> forall j :: i <= j < 12 ==> MonthNames[j] != s
    decreases 12 - i
  {
    if i == 12 then 12 else if MonthNames[i] == s then i else RankFrom(s, i + 1)
  }

  /** Position of a month name in the calendar (0 for January), or 12 for a
      value that is not a calendar month, which a categorical sort puts last. */
  function MonthRank(s: string): (r: nat)
    ensures r <= 12
    ensures r < 12 <==> s in MonthNames
    ensures r < 12 ==> MonthNames[r] == s
  {
    RankFrom(s, 0)
  }

  /** How a table's keys are ordered after a merge. */
  datatype KeyOrder =
    | Lexicographic  // pandas outer merge: keys sorted as Python strings
    | Calendar       // categorical month sort; non-months after, in merge order

  function Rank(order: KeyOrder, s: string): nat
  {
    match order
    case Lexicographic => 0
    case Calendar => MonthRank(s)
  }

  predicate Before(order: KeyOrder, a: string, b: string)
  {
    Rank(order, a) < Rank(order, b) || (Rank(order, a) == Rank(order, b) && LexLess(a, b))
  }

  lemma BeforeIrreflexive(order: KeyOrder, a: string)
    ensures !Before(order, a, a)
  {
    LexIrreflexive(a);
  }

  lemma BeforeTransitive(order: KeyOrder, a: string, b: string, c: string)
    requires Before(order, a, b) && Before(order, b, c)
    ensures Before(order, a, c)
  {
    if Rank(order, a) == Rank(order, b) == Rank(order, c) {
      LexTransitive(a, b, c);
    }
  }

  lemma BeforeTotal(order: KeyOrder, a: string, b: string)
    requires a != b
    ensures Before(order, a, b) || Before(order, b, a)
  {
    LexTotal(a, b);
  }

  predicate StrictlySorted(order: KeyOrder, s: seq<string>)
  {
    forall i, j :: 0 <= i < j < |s| ==> Before(order, s[i], s[j])
  }

  /** Inserts a key into a strictly sorted list of distinct keys. */
  function InsertKey(order: KeyOrder, k: string, s: seq<string>): (r: seq<string>)
    requires StrictlySorted(order, s)
    ensures StrictlySorted(order, r)
    ensures forall x :: x in r <==> x in s || x == k
  {
    if s == [] then [k]
    else if k == s[0] then s
    else if Before(order, k, s[0]) then
      assert forall j :: 0 < j < |s| ==> Before(order, k, s[j]) by {
        forall j | 0 < j < |s| ensures Before(order, k, s[j]) {
          BeforeTransitive(order, k, s[0], s[j]);
        }
      }
      [k] + s
    else
      BeforeTotal(order, k, s[0]);
      var rest := InsertKey(order, k, s[1..]);
      assert forall x :: x in rest ==> Before(order, s[0], x);
      [s[0]] + rest
  }

  /** The distinct keys of `keys`, in the order a merge followed by a sort
      produces them. */
  function SortedKeys(order: KeyOrder, keys: seq<string>): (r: seq<string>)
    ensures StrictlySorted(order, r)
    ensures forall x :: x in r <==> x in keys
  {
    if keys == [] then []
    else InsertKey(order, keys[|keys| - 1], SortedKeys(order, keys[..|keys| - 1]))
  }

  /** No key occurs twice. */
  predicate Distinct(s: seq<string>)
  {
    forall i, j :: 0 <= i < j < |s| ==> s[i] != s[j]
  }

  lemma SortedIsDistinct(order: KeyOrder, s: seq<string>)
    requires StrictlySorted(order, s)
    ensures Distinct(s)
  {
    forall i, j | 0 <= i < j < |s| ensures s[i] != s[j] {
      SortedDistinct(order, s, i, j);
    }
  }

  /** A strictly sorted list holds no key twice. */
  lemma SortedDistinct(order: KeyOrder, s: seq<string>, i: nat, j: nat)
    requires StrictlySorted(order, s)
    requires i < |s| && j < |s| && i != j
    ensures s[i] != s[j]
  {
    if i < j { BeforeIrreflexive(order, s[i]); } else { BeforeIrreflexive(order, s[j]); }
  }

  /** Two strictly sorted lists with the same keys start with the same key. */
  lemma SortedSameHead(order: KeyOrder, a: seq<string>, b: seq<string>)
    requires StrictlySorted(order, a) && StrictlySorted(order, b)
    requires forall x :: x in a <==> x in b
    requires a != []
    ensures b != [] && a[0] == b[0]
  {
    assert a[0] in b;
    if a[0] != b[0] {
      assert b[0] in a;
      assert Before(order, a[0], b[0]);
      assert Before(order, b[0], a[0]);
      BeforeTransitive(order, a[0], b[0], a[0]);
      BeforeIrreflexive(order, a[0]);
    }
  }

  /** Removing the first key of a strictly sorted list removes exactly that key. */
  lemma SortedTail(order: KeyOrder, a: seq<string>, x: string)
    requires StrictlySorted(order, a) && a != []
    ensures x in a[1..] <==> x in a && x != a[0]
  {
    if x in a[1..] {
      var i :| 1 <= i < |a| && a[i] == x;
      SortedDistinct(order, a, 0, i);
    }
  }

  /** The order of the merged keys depends only on which keys occur. */
  lemma {:induction false} SortedUnique(order: KeyOrder, a: seq<string>, b: seq<string>)
    requires StrictlySorted(order, a) && StrictlySorted(order, b)
    requires forall x :: x in a <==> x in b
    ensures a == b
  {
    if a == [] {
      assert forall i :: 0 <= i < |b| ==> b[i] in a;
    } else {
      SortedSameHead(order, a, b);
      forall x ensures x in a[1..] <==> x in b[1..] {
        SortedTail(order, a, x);
        SortedTail(order, b, x);
      }
      SortedUnique(order, a[1..], b[1..]);
      assert a == [a[0]] + a[1..] && b == [b[0]] + b[1..];
    }
  }
}
