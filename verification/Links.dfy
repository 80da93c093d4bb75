/** Linked structures seen as sequences: a "next" field is a sequence indexed by node number,
    and a list is the sequence of the node numbers it visits. */
module Links {

  /** The null link. */
  const NULL := -1

  /** Terminates the Recent stack; differs from the null link, so the bottom node still counts as marked. */
  const DUMMY := -2

  ghost predicate Distinct<T>(s: seq<T>) {
    forall i, j :: 0 <= i < j < |s| ==> s[i] != s[j]
  }

  function First(path: seq<int>, end: int): int {
    if path == [] then end else path[0]
  }

  ghost predicate InRange(path: seq<int>, n: int) {
    forall i :: 0 <= i < |path| ==> 0 <= path[i] < n
  }

  /** Reading and writing a cell by a number that may be no cell at all. */
  function At(cells: seq<int>, i: int): int {
    if 0 <= i < |cells| then cells[i] else NULL
  }

  function Put<T>(cells: seq<T>, i: int, v: T): (r: seq<T>)
    ensures |r| == |cells|
  {
    if 0 <= i < |cells| then cells[i := v] else cells
  }

  function After(path: seq<int>, i: nat, end: int): int
    requires i < |path|
  {
    if i + 1 < |path| then path[i + 1] else end
  }

  /** Following `next` visits exactly `path` and then arrives at `end`. */
  ghost predicate Chain(next: seq<int>, path: seq<int>, end: int) {
    && InRange(path, |next|)
    && (forall i :: 0 <= i < |path| ==> next[path[i]] == After(path, i, end))
  }

  /** `path` is a doubly linked list, except that the back links of the nodes in `owed` are still to be written. */
  ghost predicate Doubly(next: seq<int>, prev: seq<int>, path: seq<int>, owed: set<int>) {
    && |next| == |prev|
    && InRange(path, |next|)
    && Distinct(path)
    && (forall i :: 0 <= i < |path| - 1 ==> next[path[i]] == path[i + 1])
    && (forall i :: 0 <= i < |path| - 1 && path[i + 1] !in owed ==> prev[path[i + 1]] == path[i])
  }

  function Drop<T>(s: seq<T>, j: nat): (r: seq<T>)
    requires j < |s|
    ensures |r| == |s| - 1
  {
    s[..j] + s[j + 1..]
  }

  lemma DropKeeps<T>(s: seq<T>, j: nat)
    requires j < |s| && Distinct(s)
    ensures Distinct(Drop(s, j))
    ensures forall x :: x in Drop(s, j) <==> x in s && x != s[j]
  {
    var r := Drop(s, j);
    forall x | x in s && x != s[j] ensures x in r {
      var i :| 0 <= i < |s| && s[i] == x;
      assert r[if i < j then i else i - 1] == x;
    }
  }

  /** Writing a cell outside a chain leaves the chain alone. */
  lemma ChainFrame(next: seq<int>, next': seq<int>, path: seq<int>, end: int)
    requires Chain(next, path, end) && |next'| == |next|
    requires forall x :: x in path ==> next'[x] == next[x]
    ensures Chain(next', path, end)
  {
  }

  lemma ChainTail(next: seq<int>, path: seq<int>, end: int)
    requires Chain(next, path, end) && path != []
    ensures Chain(next, path[1..], end) && next[path[0]] == First(path[1..], end)
  {
    var tail := path[1..];
    assert next[path[0]] == After(path, 0, end);
    forall i | 0 <= i < |tail| ensures next[tail[i]] == After(tail, i, end) {
      assert tail[i] == path[i + 1];
      assert After(tail, i, end) == After(path, i + 1, end);
    }
  }

  /** Publishing `n`, whose own links are ready, right after the first node of `path` owes one back link. */
  lemma PushSecond(next: seq<int>, prev: seq<int>, path: seq<int>, owed: set<int>, n: int)
    requires Doubly(next, prev, path, owed) && |path| >= 2
    requires 0 <= n < |next| && n !in path && n !in owed
    requires next[n] == path[1] && prev[n] == path[0]
    ensures Doubly(next[path[0] := n], prev, [path[0], n] + path[1..], owed + {path[1]})
  {
  }

  /** Publishing a ready sublist right after the first node of `path` owes one back link. */
  lemma SpliceSecond(next: seq<int>, prev: seq<int>, path: seq<int>, owed: set<int>, sub: seq<int>)
    requires Doubly(next, prev, path, owed) && |path| >= 2
    requires Doubly(next, prev, sub, owed) && sub != []
    requires forall x :: x in sub ==> x !in path && x !in owed
    requires next[sub[|sub| - 1]] == path[1] && prev[sub[0]] == path[0]
    ensures Doubly(next[path[0] := sub[0]], prev, [path[0]] + sub + path[1..], owed + {path[1]})
  {
    var whole := [path[0]] + sub + path[1..];
    var next' := next[path[0] := sub[0]];
    assert forall i :: 1 <= i <= |sub| ==> whole[i] == sub[i - 1] && whole[i] in sub;
    assert forall i :: |sub| < i < |whole| ==> whole[i] == path[i - |sub|];
    forall i | 0 <= i < |whole| - 1 ensures next'[whole[i]] == whole[i + 1] {
      if i > |sub| { assert whole[i] == path[i - |sub|] && whole[i + 1] == path[i - |sub| + 1]; }
    }
    forall i | 0 <= i < |whole| - 1 && whole[i + 1] !in owed + {path[1]} ensures prev[whole[i + 1]] == whole[i] {
      if i > |sub| { assert whole[i] == path[i - |sub|] && whole[i + 1] == path[i - |sub| + 1]; }
    }
  }

  /** The first of the two writes that unlink an inner node: its successor owes a back link afterwards. */
  lemma UnlinkForward(next: seq<int>, prev: seq<int>, path: seq<int>, owed: set<int>, j: nat)
    requires Doubly(next, prev, path, owed) && 0 < j < |path| - 1
    ensures next[path[j]] == path[j + 1]
    ensures Doubly(next[path[j - 1] := path[j + 1]], prev, Drop(path, j), owed + {path[j + 1]})
  {
    var r := Drop(path, j);
    DropKeeps(path, j);
    assert forall i :: 0 <= i < |r| ==> r[i] == path[if i < j then i else i + 1];
  }

  /** Writing an owed back link. */
  lemma BackLink(next: seq<int>, prev: seq<int>, path: seq<int>, owed: set<int>, j: nat)
    requires Doubly(next, prev, path, owed) && j + 1 < |path|
    ensures Doubly(next, prev[path[j + 1] := path[j]], path, owed - {path[j + 1]})
  {
  }

  /** Cells off the list may be rewritten freely. */
  lemma DoublyFrame(next: seq<int>, prev: seq<int>, next': seq<int>, prev': seq<int>, path: seq<int>, owed: set<int>)
    requires Doubly(next, prev, path, owed) && |next'| == |prev'| == |next|
    requires forall x :: x in path ==> next'[x] == next[x] && prev'[x] == prev[x]
    ensures Doubly(next', prev', path, owed)
  {
    forall i | 0 <= i < |path| - 1 ensures next'[path[i]] == path[i + 1] { assert path[i] in path; }
    forall i | 0 <= i < |path| - 1 && path[i + 1] !in owed ensures prev'[path[i + 1]] == path[i] { assert path[i + 1] in path; }
  }

  /** Linking `n` behind the last node of a list. */
  lemma AppendLink(next: seq<int>, prev: seq<int>, path: seq<int>, n: int)
    requires Doubly(next, prev, path, {}) && path != []
    requires 0 <= n < |next| && n !in path
    ensures Doubly(next[path[|path| - 1] := n], prev[n := path[|path| - 1]], path + [n], {})
  {
  }

  /** The four writes that insert `n` in front of the last cell of a list. */
  lemma InsertBeforeLast(next: seq<int>, prev: seq<int>, path: seq<int>, n: int)
    requires Doubly(next, prev, path, {}) && |path| >= 2 && 0 <= n < |next| && n !in path
    ensures var k := |path| - 1;
      Doubly(next[path[k - 1] := n][n := path[k]], prev[n := path[k - 1]][path[k] := n], path[..k] + [n] + path[k..], {})
  {
    var k := |path| - 1;
    var r := path[..k] + [n] + path[k..];
    var next', prev' := next[path[k - 1] := n][n := path[k]], prev[n := path[k - 1]][path[k] := n];
    forall i | 0 <= i < |r| - 1 ensures next'[r[i]] == r[i + 1] && prev'[r[i + 1]] == r[i] {
      if i + 1 < k { assert r[i] == path[i] && r[i + 1] == path[i + 1]; }
    }
  }

  lemma DoublyTail(next: seq<int>, prev: seq<int>, path: seq<int>)
    requires Doubly(next, prev, path, {}) && path != []
    ensures Doubly(next, prev, path[1..], {})
  {
    var tail := path[1..];
    forall i | 0 <= i < |tail| - 1 ensures next[tail[i]] == tail[i + 1] && prev[tail[i + 1]] == tail[i] {
      assert tail[i] == path[i + 1] && tail[i + 1] == path[i + 2];
    }
  }

  lemma PushChain(next: seq<int>, path: seq<int>, end: int, n: int)
    requires Chain(next, path, end) && 0 <= n < |next| && next[n] == First(path, end)
    ensures Chain(next, [n] + path, end)
  {
    var whole := [n] + path;
    forall i | 0 <= i < |whole| ensures next[whole[i]] == After(whole, i, end) {
      if i > 0 { assert After(whole, i, end) == After(path, i - 1, end); }
    }
  }

  /** Cutting the node at `j` out of a singly linked list. */
  lemma CutChain(next: seq<int>, path: seq<int>, end: int, j: nat)
    requires Chain(next, path, end) && Distinct(path) && 0 < j < |path|
    ensures next[path[j]] == After(path, j, end)
    ensures Chain(next[path[j - 1] := next[path[j]]], Drop(path, j), end)
  {
    var r := Drop(path, j);
    var next' := next[path[j - 1] := next[path[j]]];
    assert next[path[j]] == After(path, j, end);
    forall i | 0 <= i < |r| ensures 0 <= r[i] < |next| && next'[r[i]] == After(r, i, end) {
      CutStep(path, end, j, i);
      var m := if i < j then i else i + 1;
      assert path[m] != path[j - 1] || m == j - 1;
    }
  }

  lemma CutStep(path: seq<int>, end: int, j: nat, i: nat)
    requires 0 < j < |path| && i < |path| - 1
    ensures Drop(path, j)[i] == path[if i < j then i else i + 1]
    ensures After(Drop(path, j), i, end) == After(path, if i == j - 1 then j else if i < j then i else i + 1, end)
  {
  }

  /** Moving the inner node at `j` of one list to the end of another one, write by write. */
  lemma Transfer(next: seq<int>, prev: seq<int>, path: seq<int>, j: nat, local: seq<int>)
    returns (next': seq<int>, prev': seq<int>)
    requires Doubly(next, prev, path, {}) && Doubly(next, prev, local, {})
    requires 0 < j < |path| - 1 && local != [] && forall x :: x in local ==> x !in path
    ensures next' == next[path[j - 1] := path[j + 1]][local[|local| - 1] := path[j]]
    ensures prev' == prev[path[j + 1] := path[j - 1]][path[j] := local[|local| - 1]]
    ensures Doubly(next', prev', Drop(path, j), {}) && Doubly(next', prev', local + [path[j]], {})
  {
    var next1, prev1 := next[path[j - 1] := path[j + 1]], prev[path[j + 1] := path[j - 1]];
    Unlink(next, prev, path, j);
    DoublyFrame(next, prev, next1, prev1, local, {});
    var last, x := local[|local| - 1], path[j];
    next', prev' := next1[last := x], prev1[x := last];
    AppendLink(next1, prev1, local, x);
    DropKeeps(path, j);
    assert last in local;
    DoublyFrame(next1, prev1, next', prev', Drop(path, j), {});
  }

  /** Both writes of an unlink. */
  lemma Unlink(next: seq<int>, prev: seq<int>, path: seq<int>, j: nat)
    requires Doubly(next, prev, path, {}) && 0 < j < |path| - 1
    ensures next[path[j]] == path[j + 1] && prev[path[j]] == path[j - 1]
    ensures Doubly(next[path[j - 1] := path[j + 1]], prev[path[j + 1] := path[j - 1]], Drop(path, j), {})
  {
    var rest, y := Drop(path, j), path[j + 1];
    assert prev[path[j - 1 + 1]] == path[j - 1];
    UnlinkForward(next, prev, path, {}, j);
    assert rest[j - 1] == path[j - 1] && rest[j] == y;
    BackLink(next[path[j - 1] := y], prev, rest, {} + {y}, j - 1);
    assert {} + {y} - {y} == {};
  }

  ghost predicate Apart(a: seq<int>, b: seq<int>) {
    forall x :: x in a ==> x !in b
  }

  lemma ApartAfterDrop(chains: seq<seq<int>>, b: nat, j: nat)
    requires b < |chains| && j < |chains[b]| && Distinct(chains[b])
    requires forall b, c :: 0 <= b < |chains| && 0 <= c < |chains| && b != c ==> Apart(chains[b], chains[c])
    ensures var r := chains[b := Drop(chains[b], j)];
      forall c, d :: 0 <= c < |r| && 0 <= d < |r| && c != d ==> Apart(r[c], r[d])
  {
    DropKeeps(chains[b], j);
    var r := chains[b := Drop(chains[b], j)];
    forall c, d | 0 <= c < |r| && 0 <= d < |r| && c != d ensures Apart(r[c], r[d]) {
      assert Apart(chains[c], chains[d]);
    }
  }

  lemma IndexOf<T>(s: seq<T>, x: T) returns (i: nat)
    requires x in s
    ensures i < |s| && s[i] == x
  {
    i :| 0 <= i < |s| && s[i] == x;
  }

  lemma ChainInRange(next: seq<int>, path: seq<int>, end: int)
    requires Chain(next, path, end)
    ensures InRange(path, |next|)
  {
  }

  /** A write to a cell that is not on a path is not seen there. */
  lemma OutsideSame(path: seq<int>, cells: seq<int>, i: int, v: int)
    requires i !in path && InRange(path, |cells|)
    ensures forall z :: z in path ==> 0 <= z < |cells| && Put(cells, i, v)[z] == cells[z]
  {
    forall z | z in path ensures 0 <= z < |cells| && Put(cells, i, v)[z] == cells[z] {
      var j := IndexOf(path, z);
    }
  }
}
