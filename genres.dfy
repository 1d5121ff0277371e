/**
 * The genre catalogue of web_ui/src/filmsearch_api.py: genres that compare
 * by priority alone, the fourteen declared genres, the priority-sorted list
 * built by `Genres._setup`, and the url lookup table built by `__init__`.
 */
module Genres {
  import opened Wrappers

  /** A `Genre` object: label shown in the UI, url slug, API name, priority. */
  datatype Genre = Genre(ui: string, url: string, api: string, priority: int)

  /** The right-hand operand of a comparison: a `Genre` or any other object. */
  datatype Operand = IsGenre(genre: Genre) | NotGenre

  /** The ValueError raised when a genre is compared with something else. */
  datatype ValueError = CannotCompare

  /** `Genre.__eq__`: equal priorities; comparing with a non-genre raises. */
  function Eq(self: Genre, other: Operand): (r: Result<bool, ValueError>)
    ensures r.Err? <==> other.NotGenre?
    ensures other.IsGenre? ==> (r == Ok(true) <==> self.priority == other.genre.priority)
  {
    match other
    case NotGenre => Err(CannotCompare)
    case IsGenre(g) => if self.priority == g.priority then Ok(true) else Ok(false)
  }

  /** `Genre.__gt__`: strictly greater priority; a non-genre operand raises. */
  function Gt(self: Genre, other: Operand): (r: Result<bool, ValueError>)
    ensures r.Err? <==> other.NotGenre?
    ensures other.IsGenre? ==> (r == Ok(true) <==> self.priority > other.genre.priority)
  {
    match other
    case NotGenre => Err(CannotCompare)
    case IsGenre(g) => if self.priority > g.priority then Ok(true) else Ok(false)
  }

  /** `x < y` as `list.sort` evaluates it: `Genre` has no `__lt__`, so Python
      falls back on the reflected `y.__gt__(x)`. */
  function Lt(x: Genre, y: Genre): (r: bool)
    ensures r <==> x.priority < y.priority
  {
    Gt(y, IsGenre(x)) == Ok(true)
  }

  /** Equality is an equivalence on genres. */
  lemma EqEquivalence(a: Genre, b: Genre, c: Genre)
    ensures Eq(a, IsGenre(a)) == Ok(true)
    ensures Eq(a, IsGenre(b)) == Eq(b, IsGenre(a))
    ensures Eq(a, IsGenre(b)) == Ok(true) && Eq(b, IsGenre(c)) == Ok(true) ==> Eq(a, IsGenre(c)) == Ok(true)
  {
  }

  /** `>` is a strict order, and exactly one of `a == b`, `a > b`, `b > a` holds. */
  lemma GtStrictOrder(a: Genre, b: Genre, c: Genre)
    ensures Gt(a, IsGenre(a)) == Ok(false)
    ensures Gt(a, IsGenre(b)) == Ok(true) && Gt(b, IsGenre(c)) == Ok(true) ==> Gt(a, IsGenre(c)) == Ok(true)
    ensures (if Eq(a, IsGenre(b)) == Ok(true) then 1 else 0) +
            (if Gt(a, IsGenre(b)) == Ok(true) then 1 else 0) +
            (if Gt(b, IsGenre(a)) == Ok(true) then 1 else 0) == 1
  {
  }

  /** Comparisons see nothing but the priority: two genres of equal priority
      compare alike on either side, however their names differ. */
  lemma PriorityOnly(a: Genre, a': Genre, x: Operand)
    requires a.priority == a'.priority
    ensures Eq(a, x) == Eq(a', x) && Gt(a, x) == Gt(a', x)
    ensures x.IsGenre? ==> Eq(x.genre, IsGenre(a)) == Eq(x.genre, IsGenre(a')) &&
                           Gt(x.genre, IsGenre(a)) == Gt(x.genre, IsGenre(a'))
    ensures Eq(a, IsGenre(a')) == Ok(true)
  {
  }

  // ---------------------------------------------------------------------
  // The stable sort by priority

  ghost predicate Sorted(s: seq<Genre>) {
    forall i, j :: 0 <= i < j < |s| ==> s[i].priority <= s[j].priority
  }

  /** Places `x` behind every element of `t` whose priority is at most its own,
      scanning from the right: one step of insertion sort. */
  function Insert(t: seq<Genre>, x: Genre): (r: seq<Genre>)
    ensures |r| == |t| + 1
  {
    if |t| == 0 || t[|t| - 1].priority <= x.priority then t + [x]
    else Insert(t[..|t| - 1], x) + [t[|t| - 1]]
  }

  lemma {:induction false} InsertPermutes(t: seq<Genre>, x: Genre)
    ensures multiset(Insert(t, x)) == multiset(t) + multiset{x}
  {
    if |t| > 0 && t[|t| - 1].priority > x.priority {
      InsertPermutes(t[..|t| - 1], x);
      assert t == t[..|t| - 1] + [t[|t| - 1]];
    }
  }

  /** The order a stable sort by priority produces: each element in turn is
      inserted into the sorted prefix before it. */
  function StableSort(s: seq<Genre>): (r: seq<Genre>)
    ensures |r| == |s|
  {
    if |s| == 0 then [] else Insert(StableSort(s[..|s| - 1]), s[|s| - 1])
  }

  /** The genres of priority `p`, in their order in `s`. */
  function OfPriority(s: seq<Genre>, p: int): (r: seq<Genre>)
    ensures forall i :: 0 <= i < |r| ==> r[i].priority == p
  {
    if |s| == 0 then []
    else OfPriority(s[..|s| - 1], p) + (if s[|s| - 1].priority == p then [s[|s| - 1]] else [])
  }

  lemma {:induction false} InsertSorted(t: seq<Genre>, x: Genre)
    requires Sorted(t)
    ensures Sorted(Insert(t, x))
  {
    if |t| == 0 || t[|t| - 1].priority <= x.priority {
      SnocSorted(t, x);
    } else {
      var init, y := t[..|t| - 1], t[|t| - 1];
      SortedPrefix(t);
      InsertSorted(init, x);
      InsertBounded(init, x, y.priority);
      SnocSorted(Insert(init, x), y);
    }
  }

  /** Insertion adds no genre above a bound that `t` and `x` respect. */
  lemma {:induction false} InsertBounded(t: seq<Genre>, x: Genre, b: int)
    requires forall k :: 0 <= k < |t| ==> t[k].priority <= b
    requires x.priority <= b
    ensures forall k :: 0 <= k < |t| + 1 ==> Insert(t, x)[k].priority <= b
  {
    if |t| > 0 && t[|t| - 1].priority > x.priority {
      InsertBounded(t[..|t| - 1], x, b);
    }
  }

  /** Appending a genre no lower than every element keeps a list sorted. */
  lemma SnocSorted(u: seq<Genre>, y: Genre)
    requires Sorted(u)
    requires forall k :: 0 <= k < |u| ==> u[k].priority <= y.priority
    ensures Sorted(u + [y])
  {
  }

  /** Insertion appends `x` to its own priority class and leaves the others alone. */
  lemma {:induction false} InsertOfPriority(t: seq<Genre>, x: Genre, p: int)
    ensures OfPriority(Insert(t, x), p) == OfPriority(t, p) + (if x.priority == p then [x] else [])
  {
    if |t| == 0 || t[|t| - 1].priority <= x.priority {
      assert (t + [x])[..|t|] == t;
    } else {
      var y := t[|t| - 1];
      var u := Insert(t[..|t| - 1], x);
      assert (u + [y])[..|u|] == u;
      InsertOfPriority(t[..|t| - 1], x, p);
    }
  }

  /** The result is ordered by priority. */
  lemma {:induction false} StableSortSorted(s: seq<Genre>)
    ensures Sorted(StableSort(s))
  {
    if |s| > 0 {
      StableSortSorted(s[..|s| - 1]);
      InsertSorted(StableSort(s[..|s| - 1]), s[|s| - 1]);
    }
  }

  /** The result is a permutation of the input. */
  lemma {:induction false} StableSortPermutes(s: seq<Genre>)
    ensures multiset(StableSort(s)) == multiset(s)
  {
    if |s| > 0 {
      var init, x := s[..|s| - 1], s[|s| - 1];
      var sorted := StableSort(init);
      assert StableSort(s) == Insert(sorted, x);
      StableSortPermutes(init);
      InsertPermutes(sorted, x);
      assert s == init + [x];
    }
  }

  /** Stability: genres of equal priority keep their relative order. */
  lemma {:induction false} StableSortStable(s: seq<Genre>, p: int)
    ensures OfPriority(StableSort(s), p) == OfPriority(s, p)
  {
    if |s| > 0 {
      StableSortStable(s[..|s| - 1], p);
      InsertOfPriority(StableSort(s[..|s| - 1]), s[|s| - 1], p);
    }
  }

  /** A list that is already in priority order is left as it is. */
  lemma {:induction false} StableSortOfSorted(s: seq<Genre>)
    requires Sorted(s)
    ensures StableSort(s) == s
  {
    if |s| > 0 {
      var init, x := s[..|s| - 1], s[|s| - 1];
      SortedPrefix(s);
      StableSortOfSorted(init);
      assert |init| > 0 ==> init[|init| - 1].priority <= x.priority;
      assert Insert(init, x) == init + [x];
      assert s == init + [x];
    }
  }

  /** Dropping the last genre keeps a list sorted. */
  lemma SortedPrefix(s: seq<Genre>)
    requires Sorted(s) && |s| > 0
    ensures Sorted(s[..|s| - 1])
  {
  }

  /** A sorted list has no genre of priority above its last one. */
  lemma {:induction false} NoneAboveLast(u: seq<Genre>, p: int)
    requires Sorted(u) && |u| > 0 && p > u[|u| - 1].priority
    ensures OfPriority(u, p) == []
  {
    if |u| > 1 {
      NoneAboveLast(u[..|u| - 1], p);
    }
  }

  /** A non-empty list has a genre of its last genre's priority. */
  lemma LastInOwnClass(u: seq<Genre>)
    requires |u| > 0
    ensures OfPriority(u, u[|u| - 1].priority) ==
            OfPriority(u[..|u| - 1], u[|u| - 1].priority) + [u[|u| - 1]]
  {
  }

  /** Two sorted lists with the same priority classes end in the same priority. */
  lemma SameLastPriority(u: seq<Genre>, v: seq<Genre>)
    requires Sorted(u) && Sorted(v) && |u| > 0 && |v| > 0
    requires OfPriority(u, u[|u| - 1].priority) == OfPriority(v, u[|u| - 1].priority)
    requires OfPriority(u, v[|v| - 1].priority) == OfPriority(v, v[|v| - 1].priority)
    ensures u[|u| - 1].priority == v[|v| - 1].priority
  {
    LastInOwnClass(u);
    LastInOwnClass(v);
    if u[|u| - 1].priority < v[|v| - 1].priority {
      NoneAboveLast(u, v[|v| - 1].priority);
    } else if v[|v| - 1].priority < u[|u| - 1].priority {
      NoneAboveLast(v, u[|u| - 1].priority);
    }
  }

  /** Dropping equal-priority last genres keeps the classes equal, and those
      last genres are the same genre. */
  lemma DropLast(u: seq<Genre>, v: seq<Genre>, p: int)
    requires |u| > 0 && |v| > 0 && u[|u| - 1].priority == v[|v| - 1].priority
    requires OfPriority(u, p) == OfPriority(v, p)
    ensures OfPriority(u[..|u| - 1], p) == OfPriority(v[..|v| - 1], p)
    ensures p == u[|u| - 1].priority ==> u[|u| - 1] == v[|v| - 1]
  {
    var a, b := u[|u| - 1], v[|v| - 1];
    var U, V := OfPriority(u[..|u| - 1], p), OfPriority(v[..|v| - 1], p);
    if a.priority == p {
      assert U + [a] == V + [b];
      assert U == (U + [a])[..|U|] && V == (V + [b])[..|V|];
      assert (U + [a])[|U|] == a && (V + [b])[|V|] == b;
    } else {
      assert U + [] == U && V + [] == V;
    }
  }

  /** Sortedness and the order inside each priority class determine a list,
      so any stable sort by priority, Python's timsort included, yields
      exactly `StableSort`. */
  lemma {:induction false} SortedUnique(u: seq<Genre>, v: seq<Genre>)
    requires Sorted(u) && Sorted(v)
    requires forall p :: OfPriority(u, p) == OfPriority(v, p)
    ensures u == v
  {
    if |u| > 0 {
      LastInOwnClass(u);
      assert OfPriority(v, u[|u| - 1].priority) != [];
    }
    if |v| > 0 {
      LastInOwnClass(v);
      assert OfPriority(u, v[|v| - 1].priority) != [];
    }
    if |u| > 0 && |v| > 0 {
      SameLastPriority(u, v);
      var u', v' := u[..|u| - 1], v[..|v| - 1];
      forall p ensures OfPriority(u', p) == OfPriority(v', p) {
        DropLast(u, v, p);
      }
      DropLast(u, v, u[|u| - 1].priority);
      assert Sorted(u') && Sorted(v');
      SortedUnique(u', v');
      assert u == u' + [u[|u| - 1]] && v == v' + [v[|v| - 1]];
    }
  }

  /** Hence `StableSort` is the one sorted arrangement of `s` that keeps each
      priority class in input order. */
  lemma StableSortIsTheStableSort(s: seq<Genre>, r: seq<Genre>)
    requires Sorted(r) && forall p :: OfPriority(r, p) == OfPriority(s, p)
    ensures r == StableSort(s)
  {
    StableSortSorted(s);
    forall p ensures OfPriority(r, p) == OfPriority(StableSort(s), p) {
      StableSortStable(s, p);
    }
    SortedUnique(r, StableSort(s));
  }

  /** Insertion lands right after the last genre, from the right, whose
      priority is at most that of `x`. */
  lemma {:induction false} InsertPosition(t: seq<Genre>, j: int, x: Genre)
    requires 0 <= j <= |t|
    requires j == 0 || t[j - 1].priority <= x.priority
    requires forall k :: j <= k < |t| ==> t[k].priority > x.priority
    ensures Insert(t, x) == t[..j] + [x] + t[j..]
    decreases |t|
  {
    if j == |t| {
      assert t[..j] == t && t[j..] == [];
    } else {
      var init := t[..|t| - 1];
      InsertPosition(init, j, x);
      assert init[..j] == t[..j];
      assert init[j..] + [t[|t| - 1]] == t[j..];
    }
  }

  /** The inner loop of insertion sort: `a[i]` moves left past every element
      of the prefix `a[..i]` that is greater than it. */
  method InsertAt(a: array<Genre>, i: int)
    requires 0 <= i < a.Length
    modifies a
    ensures a[..i + 1] == Insert(old(a[..i]), old(a[i]))
    ensures forall k :: i < k < a.Length ==> a[k] == old(a[k])
  {
    ghost var t := a[..i];
    var x := a[i];
    var j := i;
    while j > 0 && Lt(x, a[j - 1])
      invariant 0 <= j <= i
      invariant forall k :: 0 <= k < j ==> a[k] == t[k]
      invariant forall k :: j < k <= i ==> a[k] == t[k - 1]
      invariant forall k :: i < k < a.Length ==> a[k] == old(a[k])
      invariant forall k :: j <= k < i ==> t[k].priority > x.priority
    {
      var y := a[j - 1];
      assert y == t[j - 1];
      a[j] := y;
      j := j - 1;
    }
    a[j] := x;
    InsertPosition(t, j, x);
    Slotted(a[..i + 1], t, j, x);
  }

  /** A list that agrees with `t` before `j`, holds `x` at `j` and agrees with
      `t` shifted by one after it is `t` with `x` slotted in at `j`. */
  lemma Slotted(r: seq<Genre>, t: seq<Genre>, j: int, x: Genre)
    requires |r| == |t| + 1 && 0 <= j <= |t|
    requires forall k :: 0 <= k < j ==> r[k] == t[k]
    requires r[j] == x
    requires forall k :: j < k < |r| ==> r[k] == t[k - 1]
    ensures r == t[..j] + [x] + t[j..]
  {
  }

  /** One more element of the input is one more insertion. */
  lemma StableSortSnoc(s: seq<Genre>, i: int)
    requires 0 <= i < |s|
    ensures StableSort(s[..i + 1]) == Insert(StableSort(s[..i]), s[i])
  {
    assert s[..i + 1][..i] == s[..i];
  }

  /** `list.sort()` on genres: a stable sort in place, comparing with the
      reflected `__gt__`. */
  method SortByPriority(a: array<Genre>)
    modifies a
    ensures a[..] == StableSort(old(a[..]))
  {
    ghost var s := a[..];
    var i := 0;
    while i < a.Length
      invariant 0 <= i <= a.Length
      invariant a[..i] == StableSort(s[..i])
      invariant forall k :: i <= k < a.Length ==> a[k] == s[k]
    {
      InsertAt(a, i);
      StableSortSnoc(s, i);
      i := i + 1;
    }
    assert s[..a.Length] == s;
  }

  // ---------------------------------------------------------------------
  // The declared catalogue

  const Thriller := Genre("Триллер", "thriller", "триллер", 1)
  const Action := Genre("Боевик", "action", "боевик", 2)
  const War := Genre("Военный", "war", "военный", 3)
  const Drama := Genre("Драма", "drama", "драма", 4)
  const Fantasy := Genre("Фэнтези", "fantasy", "фэнтези", 5)
  const SciFi := Genre("Фантастика", "scifi", "фантастика", 6)
  const Comedy := Genre("Комедия", "comedy", "комедия", 7)
  const Crime := Genre("Криминал", "crime", "криминал", 8)
  const Historical := Genre("Исторический", "historical", "история", 9)
  const Biopic := Genre("Биография", "biopic", "биография", 10)
  const Cartoon := Genre("Мультфильм", "cartoon", "мультфильм", 12)
  const Anime := Genre("Аниме", "anime", "аниме", 100)
  const Melodrama := Genre("Мелодрама", "melodrama", "мелодрама", 100)
  const Family := Genre("Семейный", "family", "семейный", 100)

  /** The class attributes of `Genres` in declaration order. */
  const Declared: seq<Genre> := [Thriller, Action, War, Drama, Fantasy, SciFi, Comedy,
                                  Crime, Historical, Biopic, Cartoon, Anime, Melodrama, Family]

  /** Every adjacent pair in order makes the whole list sorted. */
  lemma {:induction false} AdjacentSorted(s: seq<Genre>)
    requires forall i :: 0 <= i < |s| - 1 ==> s[i].priority <= s[i + 1].priority
    ensures Sorted(s)
  {
    if |s| > 1 {
      AdjacentSorted(s[1..]);
      forall j | 0 < j < |s| ensures s[0].priority <= s[j].priority {
        if j > 1 {
          assert s[1..][0] == s[1] && s[1..][j - 1] == s[j];
        }
      }
    }
  }

  /** The declaration order is already priority order. */
  lemma DeclaredSorted()
    ensures Sorted(Declared)
  {
    forall i | 0 <= i < |Declared| - 1 ensures Declared[i].priority <= Declared[i + 1].priority {
      assert i in {0, 1, 2, 3, 4, 5, 6, 7, 8, 9, 10, 11, 12};
    }
    AdjacentSorted(Declared);
  }

  /** No two declared genres share a url. */
  lemma DeclaredUrlsDistinct()
    ensures forall i, j :: 0 <= i < j < |Declared| ==> Declared[i].url != Declared[j].url
  {
    forall i, j | 0 <= i < j < |Declared| ensures Declared[i].url != Declared[j].url {
      assert Declared[i].url[0] != Declared[j].url[0] || |Declared[i].url| != |Declared[j].url|;
    }
  }

  /** `_setup`: the declared genres copied into a list and sorted in place. */
  method SetUp() returns (all: seq<Genre>)
    ensures all == StableSort(Declared)
  {
    var a := new Genre[|Declared|](i requires 0 <= i < |Declared| => Declared[i]);
    assert a[..] == Declared;
    SortByPriority(a);
    all := a[..];
  }

  /** Sorting leaves the declared list as it is. */
  lemma SetUpKeepsDeclared()
    ensures StableSort(Declared) == Declared
  {
    DeclaredSorted();
    StableSortOfSorted(Declared);
  }

  /** THRILLER is first and has the strictly smallest priority. */
  lemma ThrillerUniqueMinimum()
    ensures Declared[0] == Thriller && Thriller.priority == 1
    ensures forall i :: 0 < i < |Declared| ==> Thriller.priority < Declared[i].priority
  {
    forall i | 0 < i < |Declared| ensures Thriller.priority < Declared[i].priority {
      assert i in {1, 2, 3, 4, 5, 6, 7, 8, 9, 10, 11, 12, 13};
    }
  }

  /** The classes of a concatenation are the concatenated classes. */
  lemma {:induction false} OfPriorityAppend(s: seq<Genre>, t: seq<Genre>, p: int)
    ensures OfPriority(s + t, p) == OfPriority(s, p) + OfPriority(t, p)
  {
    if |t| > 0 {
      OfPriorityAppend(s, t[..|t| - 1], p);
      assert (s + t)[..|s + t| - 1] == s + t[..|t| - 1];
    } else {
      assert s + t == s;
    }
  }

  /** The genres of priority 100 are ANIME, MELODRAMA, FAMILY, as declared. */
  lemma DeclaredPriority100()
    ensures OfPriority(Declared, 100) == [Anime, Melodrama, Family]
  {
    var d := Declared;
    var last := [Anime, Melodrama, Family];
    assert d == d[..11] + last;
    OfPriorityAppend(d[..11], last, 100);
    DeclaredSorted();
    assert Sorted(d[..11]);
    NoneAboveLast(d[..11], 100);
    WholeClass(last, 100);
  }

  /** A list of one priority is its own class. */
  lemma {:induction false} WholeClass(s: seq<Genre>, p: int)
    requires forall i :: 0 <= i < |s| ==> s[i].priority == p
    ensures OfPriority(s, p) == s
  {
    if |s| > 0 {
      WholeClass(s[..|s| - 1], p);
      assert s == s[..|s| - 1] + [s[|s| - 1]];
    }
  }

  /** `{genre.url: genre for genre in gs}`: a later genre with the same url
      overwrites an earlier one. */
  function UrlIndex(gs: seq<Genre>): (r: map<string, Genre>)
    ensures forall url :: url in r <==> exists i :: 0 <= i < |gs| && gs[i].url == url
    ensures forall url :: url in r ==> r[url] in gs && r[url].url == url
  {
    if |gs| == 0 then map[]
    else
      var r := UrlIndex(gs[..|gs| - 1]);
      assert forall g :: g in gs[..|gs| - 1] ==> g in gs;
      r[gs[|gs| - 1].url := gs[|gs| - 1]]
  }

  /** With distinct urls every genre is found under its own url. */
  lemma {:induction false} UrlIndexFinds(gs: seq<Genre>, i: int)
    requires forall j, k :: 0 <= j < k < |gs| ==> gs[j].url != gs[k].url
    requires 0 <= i < |gs|
    ensures gs[i].url in UrlIndex(gs) && UrlIndex(gs)[gs[i].url] == gs[i]
  {
    if i < |gs| - 1 {
      UrlIndexFinds(gs[..|gs| - 1], i);
    }
  }

  /** The `Genres` object: the sorted catalogue and its url index, both set
      once by the constructor. */
  class Genres {
    const all: seq<Genre>
    const mapper: map<string, Genre>

    ghost predicate Valid() {
      all == Declared && mapper == UrlIndex(all)
    }

    constructor()
      ensures Valid()
      ensures all == StableSort(Declared)
    {
      var sorted := SetUp();
      SetUpKeepsDeclared();
      all := sorted;
      mapper := UrlIndex(sorted);
    }

    /** `map(url_name)`: the genre with that url, or None. */
    function Map(url: string): (r: Option<Genre>)
      requires Valid()
      ensures r.Some? ==> r.value in all && r.value.url == url
      ensures r.None? <==> forall g :: g in all ==> g.url != url
    {
      if url in mapper then Some(mapper[url]) else None
    }

    /** `default`: THRILLER. */
    function Default(): (r: Genre)
      requires Valid()
      ensures |all| > 0 && all[0] == r
      ensures forall i :: 0 < i < |all| ==> r.priority < all[i].priority
    {
      ThrillerUniqueMinimum();
      Thriller
    }
  }

  /** Every genre of the catalogue is found under its url. */
  lemma MapFindsEvery(gs: Genres, i: int)
    requires gs.Valid() && 0 <= i < |gs.all|
    ensures gs.Map(gs.all[i].url) == Some(gs.all[i])
  {
    DeclaredUrlsDistinct();
    UrlIndexFinds(gs.all, i);
  }

  /** `all` holds the fourteen declared genres sorted by priority; the three
      genres of priority 100 keep their declaration order. */
  lemma CatalogueOrder(gs: Genres)
    requires gs.Valid()
    ensures |gs.all| == 14 && Sorted(gs.all) && multiset(gs.all) == multiset(Declared)
    ensures OfPriority(gs.all, 100) == [Anime, Melodrama, Family]
    ensures gs.Default() == Thriller && gs.Default().priority == 1
  {
    DeclaredSorted();
    DeclaredPriority100();
    ThrillerUniqueMinimum();
  }
}
