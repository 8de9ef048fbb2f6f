/**
 * The waiter registry: lists of channels held in growable arrays that are appended to and shifted in place,
 * while notify calls that have left the critical section are still closing the channels they took with them.
 */
module Waiters {
  import opened Model

  type Chan = nat

  /** A Go slice over a backing array. */
  datatype Slice = Slice(arr: array<Chan>, len: nat)

  /** A notify call after its critical section: its snapshot, and the next channel to close. */
  datatype Notifying = Notifying(list: Slice, next: nat)

  /** Who holds a list: the table, or a notify call under way. */
  datatype Holder = Table(run: RunId) | Flight(id: nat)

  /** The cells of an array that make up a list. */
  datatype Span = Span(arr: array<Chan>, from: nat, to: nat)

  function SpanOf(byID: map<RunId, Slice>, flights: map<nat, Notifying>, h: Holder): Option<Span> {
    match h
    case Table(r) => if r in byID then Some(Span(byID[r].arr, 0, byID[r].len)) else None
    case Flight(n) => if n in flights then Some(Span(flights[n].list.arr, flights[n].next, flights[n].list.len))
      else None
  }

  type Lists = map<Holder, seq<Chan>>

  /** No channel is listed twice, in one list or in two. */
  ghost predicate Once(lists: Lists) {
    forall h, h', i, j | h in lists && h' in lists && 0 <= i < |lists[h]| && 0 <= j < |lists[h']| ::
      lists[h][i] == lists[h'][j] ==> h == h' && i == j
  }

  lemma OnceAdded(lists: Lists, h: Holder, l: seq<Chan>, c: Chan)
    requires Once(lists) && !Listed(lists, c) && l == (if h in lists then lists[h] else [])
    ensures Once(lists[h := l + [c]])
  {
    assert forall g, i | g in lists && 0 <= i < |lists[g]| :: lists[g][i] in lists[g] && lists[g][i] != c;
  }

  /** The list of `h` becomes that of `g`. */
  ghost function Moved(lists: Lists, h: Holder, g: Holder): Lists
    requires h in lists
  {
    (lists - {h})[g := lists[h]]
  }

  lemma OnceMoved(lists: Lists, h: Holder, g: Holder, closed: set<Chan>)
    requires Once(lists) && Open(lists, closed) && h in lists && g !in lists
    ensures Once(Moved(lists, h, g)) && Open(Moved(lists, h, g), closed)
  {
  }

  ghost predicate Open(lists: Lists, closed: set<Chan>) {
    forall h, i | h in lists && 0 <= i < |lists[h]| :: lists[h][i] !in closed
  }

  ghost function Members(l: seq<Chan>): set<Chan> {
    set c | c in l
  }

  lemma Shrinks(lists: Lists, h: Holder)
    requires h in lists
    ensures lists - {h} - {h} == lists - {h} && h !in lists - {h}
    ensures lists[h] == [] ==> Members(lists[h]) == {}
    ensures lists[h] != [] ==>
              lists[h := lists[h][1..]] - {h} == lists - {h}
                && Members(lists[h]) == {lists[h][0]} + Members(lists[h][1..])
  {
  }

  ghost predicate Listed(lists: Lists, c: Chan) {
    exists h :: h in lists && c in lists[h]
  }

  /** The channel that is closed next is open, and is in no list afterwards. */
  lemma HeadLeaves(lists: Lists, h: Holder, closed: set<Chan>)
    requires Once(lists) && Open(lists, closed) && h in lists && lists[h] != []
    ensures lists[h][0] !in closed
    ensures Once(lists[h := lists[h][1..]]) && Open(lists[h := lists[h][1..]], closed + {lists[h][0]})
  {
    var l' := lists[h := lists[h][1..]];
    assert forall g, i | g in l' && 0 <= i < |l'[g]| :: l'[g][i] == lists[g][if g == h then i + 1 else i];
  }

  /** The list without the first occurrence of `c`. */
  function Without(list: seq<Chan>, c: Chan): (r: seq<Chan>)
    ensures c !in list ==> r == list
    ensures c in list ==> |r| == |list| - 1
  {
    if list == [] then [] else if list[0] == c then list[1..] else [list[0]] + Without(list[1..], c)
  }

  lemma {:induction false} WithoutAt(list: seq<Chan>, i: nat)
    requires i < |list| && list[i] !in list[..i]
    ensures Without(list, list[i]) == list[..i] + list[i + 1..]
  {
    if i > 0 {
      assert list[0] in list[..i];
      assert list[1..][..i - 1] == list[..i][1..];
      WithoutAt(list[1..], i - 1);
      assert list[..i] == [list[0]] + list[1..][..i - 1];
    }
  }

  /** Go's append of one element: in place while there is room, into a larger copy otherwise. */
  method Append(s: Slice, c: Chan) returns (t: Slice)
    requires s.len <= s.arr.Length
    modifies s.arr
    ensures t.len == s.len + 1 <= t.arr.Length && t.arr[..t.len] == old(s.arr[..s.len]) + [c]
    ensures t.arr == s.arr || fresh(t.arr)
  {
    if s.len < s.arr.Length {
      t := Slice(s.arr, s.len + 1);
    } else {
      var spare: nat :| true;
      var arr := new Chan[s.len + 1 + spare];
      for i := 0 to s.len
        invariant arr[..i] == s.arr[..i]
        invariant s.arr[..s.len] == old(s.arr[..s.len])
      {
        arr[i] := s.arr[i];
      }
      t := Slice(arr, s.len + 1);
    }
    t.arr[s.len] := c;
  }

  /** append(list[:i], list[i+1:]...): the rest of the list moves one place to the left, in the same array. */
  method Cut(s: Slice, i: nat) returns (t: Slice)
    requires i < s.len <= s.arr.Length
    modifies s.arr
    ensures t == Slice(s.arr, s.len - 1) && t.arr[..t.len] == old(s.arr[..i]) + old(s.arr[i + 1..s.len])
  {
    for j := i to s.len - 1
      invariant forall m | 0 <= m < i :: s.arr[m] == old(s.arr[m])
      invariant forall m | i <= m < j :: s.arr[m] == old(s.arr[m + 1])
      invariant forall m | j <= m < s.len :: s.arr[m] == old(s.arr[m])
    {
      s.arr[j] := s.arr[j + 1];
    }
    t := Slice(s.arr, s.len - 1);
  }

  /** The cells hold the list. */
  ghost predicate Holds(x: Span, l: seq<Chan>)
    reads x.arr
  {
    x.from <= x.to <= x.arr.Length && x.arr[x.from..x.to] == l
  }

  /** The table keeps no empty list. */
  ghost function Replaced(lists: Lists, h: Holder, l: seq<Chan>): Lists {
    if l == [] then lists - {h} else lists[h := l]
  }

  lemma CutKeeps(lists: Lists, h: Holder, i: nat, closed: set<Chan>)
    requires Once(lists) && Open(lists, closed) && h in lists && i < |lists[h]|
    ensures var lists' := lists[h := lists[h][..i] + lists[h][i + 1..]]; Once(lists') && Open(lists', closed)
  {
    var lists' := lists[h := lists[h][..i] + lists[h][i + 1..]];
    assert forall g, m | g in lists' && 0 <= m < |lists'[g]| ::
        lists'[g][m] == lists[g][if g == h && m >= i then m + 1 else m];
  }

  lemma LessKeeps(lists: Lists, h: Holder, closed: set<Chan>)
    requires Once(lists) && Open(lists, closed)
    ensures Once(lists - {h}) && Open(lists - {h}, closed)
  {
  }

  lemma RemovalKeeps(lists: Lists, h: Holder, c: Chan, closed: set<Chan>)
    requires Once(lists) && Open(lists, closed) && h in lists
    ensures var lists' := Replaced(lists, h, Without(lists[h], c)); Once(lists') && Open(lists', closed)
  {
    var l := lists[h];
    LessKeeps(lists, h, closed);
    if c in l {
      var i := First(l, c);
      WithoutAt(l, i);
      CutKeeps(lists, h, i, closed);
    } else {
      assert lists[h := l] == lists;
    }
  }

  lemma First(l: seq<Chan>, c: Chan) returns (i: nat)
    requires c in l
    ensures i < |l| && l[i] == c && c !in l[..i]
  {
    i := 0;
    while l[i] != c
      invariant i < |l| && c !in l[..i]
      decreases |l| - i
    {
      i := i + 1;
    }
  }

  class Registry {
    var byID: map<RunId, Slice>
    var flights: map<nat, Notifying>
    var closed: set<Chan>
    ghost var lists: Lists
    ghost var owner: map<array<Chan>, Holder>

    ghost function At(h: Holder): Option<Span>
      reads this
    {
      SpanOf(byID, flights, h)
    }

    /** All lists but that of `but` are what their arrays hold, and no array belongs to two of them. */
    ghost predicate StoredBut(but: Option<Holder>)
      reads this, owner.Keys
    {
      && (forall h :: At(h).Some? ==> h in lists)
      && (forall h | h in lists && but != Some(h) ::
            && At(h).Some? && At(h).value.arr in owner && owner[At(h).value.arr] == h
            && Holds(At(h).value, lists[h]))
    }

    ghost predicate Stored()
      reads this, owner.Keys
    {
      StoredBut(None)
    }

    ghost predicate Valid()
      reads this, owner.Keys
    {
      Stored() && Once(lists) && Open(lists, closed)
    }

    constructor ()
      ensures Valid() && lists == map[] && closed == {}
    {
      byID, flights, closed, lists, owner := map[], map[], {}, map[], map[];
    }

    /** A channel may be closed once only. */
    method Close(c: Chan)
      requires c !in closed
      modifies `closed
      ensures closed == old(closed) + {c}
    {
      closed := closed + {c};
    }

    ghost function ListOf(run: RunId): seq<Chan>
      reads this
    {
      if Table(run) in lists then lists[Table(run)] else []
    }

    method Add(run: RunId, ch: Chan)
      requires Valid() && ch !in closed && !Listed(lists, ch)
      modifies `byID, `lists, `owner, owner.Keys
      ensures Valid()
      ensures lists == old(lists)[Table(run) := old(ListOf(run)) + [ch]]
    {
      ghost var l := ListOf(run);
      var list;
      if run in byID {
        list := byID[run];
        assert Holds(At(Table(run)).value, l);
      } else {
        var none := new Chan[0];
        list := Slice(none, 0);
      }
      OnceAdded(lists, Table(run), l, ch);
      list := Append(list, ch);
      Put(run, list, l + [ch]);
    }

    ghost predicate Others(h: Holder, arr: array<Chan>)
      reads this, owner.Keys
    {
      StoredBut(Some(h)) && (arr in owner ==> owner[arr] == h)
    }

    /** Stores a list in the table. */
    method Put(run: RunId, list: Slice, ghost l: seq<Chan>)
      requires Others(Table(run), list.arr) && Holds(Span(list.arr, 0, list.len), l)
      modifies `byID, `lists, `owner
      ensures Stored() && lists == old(lists)[Table(run) := l]
    {
      ghost var before, owned := byID, owner;
      byID := byID[run := list];
      lists := lists[Table(run) := l];
      owner := owner[list.arr := Table(run)];
      assert forall h | h != Table(run) :: At(h) == SpanOf(before, flights, h);
    }

    /** Takes one registration out, by identity; the key goes with the last one. */
    method Remove(run: RunId, ch: Chan)
      requires Valid()
      modifies `byID, `lists, `owner, owner.Keys
      ensures Valid()
      ensures lists == Replaced(old(lists), Table(run), Without(old(ListOf(run)), ch))
    {
      if run !in byID {
        assert Table(run) !in lists;
        return;
      }
      RemovalKeeps(lists, Table(run), ch, closed);
      var list := CutOut(run, ch);
      PutBack(run, list, Without(ListOf(run), ch));
    }

    method CutOut(run: RunId, ch: Chan) returns (list: Slice)
      requires Stored() && run in byID
      modifies owner.Keys
      ensures Others(Table(run), list.arr) && Holds(Span(list.arr, 0, list.len), Without(ListOf(run), ch))
    {
      ghost var l := ListOf(run);
      list := byID[run];
      assert Holds(At(Table(run)).value, l);
      var i := Find(list, ch, l);
      assert forall h | h in lists && h != Table(run) :: At(h).value.arr != list.arr;
      if i < list.len {
        WithoutAt(l, i);
        list := Cut(list, i);
        assert Holds(Span(list.arr, 0, list.len), Without(l, ch));
      }
    }

    /** The key stays only if the list is not empty. */
    method PutBack(run: RunId, list: Slice, ghost l: seq<Chan>)
      requires Others(Table(run), list.arr) && Holds(Span(list.arr, 0, list.len), l)
      modifies `byID, `lists, `owner
      ensures Stored() && lists == Replaced(old(lists), Table(run), l)
    {
      if list.len == 0 {
        Drop(run, list.arr);
      } else {
        Put(run, list, l);
      }
    }

    method Find(list: Slice, ch: Chan, ghost l: seq<Chan>) returns (i: nat)
      requires Holds(Span(list.arr, 0, list.len), l)
      ensures i <= |l| && ch !in l[..i] && (i < |l| ==> l[i] == ch)
      ensures i == |l| ==> Without(l, ch) == l
    {
      i := 0;
      while i < list.len && list.arr[i] != ch
        invariant i <= list.len && ch !in l[..i]
      {
        i := i + 1;
      }
      assert l[..|l|] == l;
    }

    method Drop(run: RunId, ghost arr: array<Chan>)
      requires Others(Table(run), arr)
      modifies `byID, `lists
      ensures Stored() && lists == old(lists) - {Table(run)}
    {
      ghost var before := byID;
      byID := byID - {run};
      lists := lists - {Table(run)};
      assert forall h | h != Table(run) :: At(h) == SpanOf(before, flights, h);
    }

    /** notify's critical section: the list leaves the table and belongs to this call from now on. */
    method Detach(run: RunId, n: nat)
      requires Valid() && n !in flights
      modifies `byID, `flights, `lists, `owner
      ensures Valid()
      ensures lists == if Table(run) in old(lists) then Moved(old(lists), Table(run), Flight(n)) else old(lists)
      ensures n in flights <==> Table(run) in old(lists)
    {
      assert At(Flight(n)) == None;
      if run in byID {
        OnceMoved(lists, Table(run), Flight(n), closed);
        HandOver(run, n);
      }
    }

    method HandOver(run: RunId, n: nat)
      requires Stored() && run in byID && n !in flights
      modifies `byID, `flights, `lists, `owner
      ensures Stored() && n in flights && Table(run) in old(lists) && lists == Moved(old(lists), Table(run), Flight(n))
    {
      ghost var before, flying := byID, flights;
      assert Holds(At(Table(run)).value, lists[Table(run)]);
      owner := owner[byID[run].arr := Flight(n)];
      flights := flights[n := Notifying(byID[run], 0)];
      byID := byID - {run};
      lists := Moved(lists, Table(run), Flight(n));
      assert At(Flight(n)) == SpanOf(before, flying, Table(run));
      assert forall h | h != Table(run) && h != Flight(n) :: At(h) == SpanOf(before, flying, h);
    }

    /** One turn of notify's loop outside the critical section; anything may happen between two turns. */
    method CloseNext(n: nat)
      requires Valid() && n in flights
      modifies `flights, `lists, `closed
      ensures Valid()
      ensures var l := old(lists)[Flight(n)];
              if l == [] then lists == old(lists) - {Flight(n)} && closed == old(closed) && n !in flights
              else
                && n in flights && lists == old(lists)[Flight(n) := l[1..]]
                && closed == old(closed) + {l[0]} && l[0] !in old(closed)
    {
      ghost var l := lists[Flight(n)];
      assert Holds(At(Flight(n)).value, l);
      var f := flights[n];
      if f.next < f.list.len {
        HeadLeaves(lists, Flight(n), closed);
        Close(f.list.arr[f.next]);
        Step(n);
      } else {
        LessKeeps(lists, Flight(n), closed);
        Land(n);
      }
    }

    method Step(n: nat)
      requires Stored() && n in flights && lists[Flight(n)] != []
      modifies `flights, `lists
      ensures Stored() && lists == old(lists)[Flight(n) := old(lists)[Flight(n)][1..]] && n in flights
    {
      ghost var flying := flights;
      var f := flights[n];
      assert Holds(At(Flight(n)).value, lists[Flight(n)]);
      flights := flights[n := Notifying(f.list, f.next + 1)];
      lists := lists[Flight(n) := lists[Flight(n)][1..]];
      assert forall h | h != Flight(n) :: At(h) == SpanOf(byID, flying, h);
    }

    method Land(n: nat)
      requires Stored()
      modifies `flights, `lists
      ensures Stored() && lists == old(lists) - {Flight(n)} && n !in flights
    {
      ghost var flying := flights;
      flights := flights - {n};
      lists := lists - {Flight(n)};
      assert forall h | h != Flight(n) :: At(h) == SpanOf(byID, flying, h);
    }

    /** All the turns, when nothing comes between them. */
    method CloseAll(n: nat)
      requires Valid() && n in flights && Flight(n) in lists
      modifies `flights, `lists, `closed
      ensures Valid() && lists == old(lists) - {Flight(n)}
      ensures closed == old(closed) + Members(old(lists)[Flight(n)])
    {
      ghost var before, all := lists, closed + Members(lists[Flight(n)]);
      while n in flights
        invariant Valid() && (n in flights ==> Flight(n) in lists)
        invariant lists - {Flight(n)} == before - {Flight(n)}
        invariant n !in flights ==> lists == before - {Flight(n)}
        invariant all == closed + if n in flights then Members(lists[Flight(n)]) else {}
        decreases if n in flights then |lists[Flight(n)]| + 1 else 0
      {
        ghost var l := lists[Flight(n)];
        Shrinks(lists, Flight(n));
        CloseNext(n);
      }
    }

    /** notify without interference: exactly the registered channels are closed, and the key is gone. */
    method Notify(run: RunId, n: nat)
      requires Valid() && n !in flights
      modifies `byID, `flights, `lists, `closed, `owner
      ensures Valid() && lists == old(lists) - {Table(run)}
      ensures closed == old(closed) + Members(old(ListOf(run)))
    {
      assert At(Flight(n)) == None && (Table(run) in lists ==> At(Table(run)).Some?);
      Detach(run, n);
      if n in flights {
        CloseAll(n);
      }
    }
  }
}
