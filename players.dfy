/**
 * Player records and the operations the server performs on a room's player
 * list: membership, filtering on disconnect, lookup (`find`), the round
 * winner (`determineRoundWinner`) and the end-of-game leaderboard.
 */
module Players {
  import opened Wrappers
  import opened Achievements

  /** A socket connection id; it is also the player id. */
  type ConnId = string

  /**
   * An entry of `room.players`. The record's own `achievements`, `streak`,
   * `powerUps` and `avatar` are never written after the join and are not kept.
   */
  datatype Player = Player(id: ConnId, name: string, score: nat, isHost: bool)

  /** The ids of the players, in list order. */
  function IdSeq(ps: seq<Player>): (r: seq<ConnId>)
    ensures |r| == |ps|
    ensures forall i :: 0 <= i < |ps| ==> r[i] == ps[i].id
  {
    seq(|ps|, i requires 0 <= i < |ps| => ps[i].id)
  }

  /** The set of ids of the players. */
  function Ids(ps: seq<Player>): (r: set<ConnId>)
  {
    set i | 0 <= i < |ps| :: ps[i].id
  }

  lemma IdsAppend(ps: seq<Player>, p: Player)
    ensures Ids(ps + [p]) == Ids(ps) + {p.id}
  {
    var qs := ps + [p];
    forall c ensures c in Ids(qs) <==> c in Ids(ps) + {p.id} {
      if c in Ids(qs) {
        var i :| 0 <= i < |qs| && qs[i].id == c;
        if i < |ps| { assert IdSeq(ps)[i] == c; }
      }
      if c in Ids(ps) {
        var i :| 0 <= i < |ps| && ps[i].id == c;
        assert IdSeq(qs)[i] == c;
      }
      if c == p.id { assert IdSeq(qs)[|ps|] == c; }
    }
  }

  /** Replacing a player by a record with the same id keeps the set of ids. */
  lemma IdsUpdate(ps: seq<Player>, k: nat, p: Player)
    requires k < |ps| && p.id == ps[k].id
    ensures Ids(ps[k := p]) == Ids(ps)
  {
    var qs := ps[k := p];
    forall c ensures c in Ids(qs) <==> c in Ids(ps) {
      if c in Ids(qs) {
        var i :| 0 <= i < |qs| && qs[i].id == c;
        assert IdSeq(ps)[i] == c;
      }
      if c in Ids(ps) {
        var i :| 0 <= i < |ps| && ps[i].id == c;
        assert IdSeq(qs)[i] == c;
      }
    }
  }

  /** `players.filter(p => p.id !== c)`. */
  function PlayersWithout(ps: seq<Player>, c: ConnId): (r: seq<Player>)
    ensures |r| <= |ps|
    ensures forall p :: p in r <==> p in ps && p.id != c
  {
    if ps == [] then []
    else if ps[0].id == c then PlayersWithout(ps[1..], c)
    else [ps[0]] + PlayersWithout(ps[1..], c)
  }

  /** Filtering out a player removes exactly that id from the set of ids. */
  lemma IdsWithout(ps: seq<Player>, c: ConnId)
    ensures Ids(PlayersWithout(ps, c)) == Ids(ps) - {c}
  {
    var r := PlayersWithout(ps, c);
    forall d ensures d in Ids(r) <==> d in Ids(ps) - {c} {
      if d in Ids(r) {
        var i :| 0 <= i < |r| && r[i].id == d;
        assert r[i] in ps;
        var j :| 0 <= j < |ps| && ps[j] == r[i];
        assert IdSeq(ps)[j] == d;
      }
      if d in Ids(ps) - {c} {
        var j :| 0 <= j < |ps| && ps[j].id == d;
        assert ps[j] in r;
        var i :| 0 <= i < |r| && r[i] == ps[j];
        assert IdSeq(r)[i] == d;
      }
    }
  }

  /** `turnOrder.filter(id => id !== c)`. */
  function Without(t: seq<ConnId>, c: ConnId): (r: seq<ConnId>)
    ensures |r| <= |t|
    ensures forall d :: d in r <==> d in t && d != c
  {
    if t == [] then []
    else if t[0] == c then Without(t[1..], c)
    else [t[0]] + Without(t[1..], c)
  }

  /**
   * Filtering removes every occurrence: no position of the filtered order
   * holds the removed id.
   */
  lemma {:induction false} WithoutNowhere(t: seq<ConnId>, c: ConnId, i: nat)
    requires i < |Without(t, c)|
    ensures Without(t, c)[i] != c
  {
    if t != [] {
      if t[0] == c {
        WithoutNowhere(t[1..], c, i);
      } else if i > 0 {
        WithoutNowhere(t[1..], c, i - 1);
      }
    }
  }

  /** Filtering a concatenation filters each part: the kept players stay in list order. */
  lemma {:induction false} PlayersWithoutAppend(ps: seq<Player>, qs: seq<Player>, c: ConnId)
    ensures PlayersWithout(ps + qs, c) == PlayersWithout(ps, c) + PlayersWithout(qs, c)
  {
    if ps == [] {
      assert ps + qs == qs;
    } else {
      assert (ps + qs)[1..] == ps[1..] + qs;
      PlayersWithoutAppend(ps[1..], qs, c);
    }
  }

  /**
   * The first player left after the filter is the first player of the list
   * with another id: host status passes to the next player in join order.
   */
  lemma PlayersWithoutFirst(ps: seq<Player>, c: ConnId, k: nat)
    requires k < |ps| && ps[k].id != c
    requires forall j :: 0 <= j < k ==> ps[j].id == c
    ensures |PlayersWithout(ps, c)| > 0 && PlayersWithout(ps, c)[0] == ps[k]
  {
    assert ps == ps[..k] + ps[k..];
    PlayersWithoutAppend(ps[..k], ps[k..], c);
    PlayersWithoutAll(ps[..k], c);
  }

  /** Filtering a list whose players all have id `c` leaves nothing. */
  lemma {:induction false} PlayersWithoutAll(ps: seq<Player>, c: ConnId)
    requires forall j :: 0 <= j < |ps| ==> ps[j].id == c
    ensures PlayersWithout(ps, c) == []
  {
    if ps != [] {
      PlayersWithoutAll(ps[1..], c);
    }
  }

  /** Filtering a concatenation filters each part: the kept entries stay in order. */
  lemma {:induction false} WithoutAppend(t: seq<ConnId>, u: seq<ConnId>, c: ConnId)
    ensures Without(t + u, c) == Without(t, c) + Without(u, c)
  {
    if t == [] {
      assert t + u == u;
    } else {
      assert (t + u)[1..] == t[1..] + u;
      WithoutAppend(t[1..], u, c);
    }
  }

  /**
   * Where the entries before position `i` end up: the first entry at or
   * after `i` that is not `c`, at `t[j]`, lands at the position that counts
   * the kept entries before `i`.
   */
  lemma WithoutAt(t: seq<ConnId>, c: ConnId, i: nat, j: nat)
    requires i <= j < |t| && t[j] != c
    requires forall m :: i <= m < j ==> t[m] == c
    ensures |Without(t[..i], c)| < |Without(t, c)|
    ensures Without(t, c)[|Without(t[..i], c)|] == t[j]
  {
    assert t == t[..i] + (t[i..j] + t[j..]);
    WithoutAppend(t[..i], t[i..j] + t[j..], c);
    WithoutAppend(t[i..j], t[j..], c);
    WithoutAll(t[i..j], c);
  }

  /** When every entry from `i` on is `c`, the kept entries all lie before `i`. */
  /** The entry after a run of `c`'s entries starting at `i` lands at the count of the others before `i`. */
  lemma WithoutSuccessor(t: seq<ConnId>, c: ConnId, i: nat, j: nat)
    requires i < j < |t| && t[i] == c && t[j] != c
    requires forall m :: i < m < j ==> t[m] == c
    ensures |Without(t[..i], c)| < |Without(t, c)|
    ensures Without(t, c)[|Without(t[..i], c)|] == t[j]
  {
    WithoutAt(t, c, i, j);
  }

  /** When only `c`'s entries follow `i`, the others before `i` are all of them. */
  lemma WithoutNoSuccessor(t: seq<ConnId>, c: ConnId, i: nat)
    requires i < |t| && t[i] == c
    requires forall m :: i < m < |t| ==> t[m] == c
    ensures |Without(t[..i], c)| == |Without(t, c)|
  {
    WithoutBefore(t, c, i);
  }

  lemma WithoutBefore(t: seq<ConnId>, c: ConnId, i: nat)
    requires i <= |t|
    ensures |Without(t[..i], c)| <= |Without(t, c)|
    ensures (forall m :: i <= m < |t| ==> t[m] == c) ==> |Without(t[..i], c)| == |Without(t, c)|
  {
    assert t == t[..i] + t[i..];
    WithoutAppend(t[..i], t[i..], c);
    if forall m :: i <= m < |t| ==> t[m] == c {
      WithoutAll(t[i..], c);
    }
  }

  /** Filtering a sequence made only of `c` leaves nothing. */
  lemma {:induction false} WithoutAll(t: seq<ConnId>, c: ConnId)
    requires forall m :: 0 <= m < |t| ==> t[m] == c
    ensures Without(t, c) == []
  {
    if t != [] {
      WithoutAll(t[1..], c);
    }
  }

  /** `players.find(p => p.id === c)`: the first position holding id `c`. */
  function IndexOfId(ps: seq<Player>, c: ConnId): (k: nat)
    requires c in Ids(ps)
    ensures k < |ps| && ps[k].id == c
    ensures forall j :: 0 <= j < k ==> ps[j].id != c
  {
    if ps[0].id == c then 0
    else
      assert c in Ids(ps[1..]) by {
        var i :| 0 <= i < |ps| && ps[i].id == c;
        assert IdSeq(ps[1..])[i - 1] == c;
      }
      1 + IndexOfId(ps[1..], c)
  }

  /** The name of the first player with id `c`. */
  function NameOf(ps: seq<Player>, c: ConnId): string
    requires c in Ids(ps)
  {
    ps[IndexOfId(ps, c)].name
  }

  /** Adds `points` to the record of the first player with id `c`. */
  function Credit(ps: seq<Player>, c: ConnId, points: nat): (r: seq<Player>)
    requires c in Ids(ps)
    ensures |r| == |ps| && Ids(r) == Ids(ps)
    ensures forall j :: 0 <= j < |ps| && j != IndexOfId(ps, c) ==> r[j] == ps[j]
    ensures r[IndexOfId(ps, c)] == ps[IndexOfId(ps, c)].(score := ps[IndexOfId(ps, c)].score + points)
  {
    var k := IndexOfId(ps, c);
    IdsUpdate(ps, k, ps[k].(score := ps[k].score + points));
    ps[k := ps[k].(score := ps[k].score + points)]
  }

  // ---------------------------------------------------------------- round winner

  /** A player's score this round: `room.roundScores[p.id] || 0`. */
  function RoundScore(rs: map<ConnId, nat>, p: Player): nat
  {
    Get(rs, p.id, 0)
  }

  /**
   * The first position among `ps[..n]` whose round score is strictly higher
   * than all before it and not lower than any after it.
   */
  function BestIndex(ps: seq<Player>, rs: map<ConnId, nat>, n: nat): (k: nat)
    requires 0 < n <= |ps|
    ensures k < n
  {
    if n == 1 then 0
    else
      var b := BestIndex(ps, rs, n - 1);
      if RoundScore(rs, ps[n - 1]) > RoundScore(rs, ps[b]) then n - 1 else b
  }

  /** The scan finds the first player holding the highest round score. */
  lemma {:induction false} BestIndexIsFirstMaximum(ps: seq<Player>, rs: map<ConnId, nat>, n: nat)
    requires 0 < n <= |ps|
    ensures forall j :: 0 <= j < n ==> RoundScore(rs, ps[j]) <= RoundScore(rs, ps[BestIndex(ps, rs, n)])
    ensures forall j :: 0 <= j < BestIndex(ps, rs, n) ==> RoundScore(rs, ps[j]) < RoundScore(rs, ps[BestIndex(ps, rs, n)])
  {
    if n > 1 {
      BestIndexIsFirstMaximum(ps, rs, n - 1);
    }
  }

  /** The `round-winner` payload; `NoWinner` is `{playerId: null, playerName: '', score: -Infinity}`. */
  datatype Winner = NoWinner | Winner(playerId: ConnId, playerName: string, score: int)

  function RoundWinner(ps: seq<Player>, rs: map<ConnId, nat>): Winner
  {
    if ps == [] then NoWinner
    else
      var k := BestIndex(ps, rs, |ps|);
      Winner(ps[k].id, ps[k].name, RoundScore(rs, ps[k]))
  }

  /**
   * `determineRoundWinner`: a running maximum over the players in list order,
   * replaced only by a strictly higher round score, so ties go to the player
   * listed first.
   */
  method DetermineRoundWinner(ps: seq<Player>, rs: map<ConnId, nat>) returns (w: Winner)
    ensures w == RoundWinner(ps, rs)
    ensures ps == [] <==> w.NoWinner?
    ensures w.Winner? ==> exists k :: 0 <= k < |ps| && ps[k].id == w.playerId && RoundScore(rs, ps[k]) == w.score
                                   && (forall j :: 0 <= j < |ps| ==> RoundScore(rs, ps[j]) <= w.score)
                                   && (forall j :: 0 <= j < k ==> RoundScore(rs, ps[j]) < w.score)
  {
    w := NoWinner;
    var best := 0;
    for i := 0 to |ps|
      invariant i == 0 <==> w.NoWinner?
      invariant i > 0 ==> best == BestIndex(ps, rs, i)
      invariant i > 0 ==> w == Winner(ps[best].id, ps[best].name, RoundScore(rs, ps[best]))
    {
      var score := RoundScore(rs, ps[i]);
      if w.NoWinner? || score > w.score {
        w := Winner(ps[i].id, ps[i].name, score);
        best := i;
      }
    }
    if ps != [] {
      BestIndexIsFirstMaximum(ps, rs, |ps|);
    }
  }

  // ---------------------------------------------------------------- leaderboard

  /** A leaderboard line: name, total score, achievements and current streak (`maxStreak`). */
  datatype Entry = Entry(name: string, score: nat, achievements: seq<Achievement>, maxStreak: nat)

  predicate SortedDesc(es: seq<Entry>)
  {
    forall i, j :: 0 <= i < j < |es| ==> es[i].score >= es[j].score
  }

  /** Places `e` before the first entry that does not score more than it. */
  function InsertDesc(e: Entry, es: seq<Entry>): seq<Entry>
  {
    if es == [] || es[0].score <= e.score then [e] + es
    else [es[0]] + InsertDesc(e, es[1..])
  }

  /** Insertion adds exactly the new entry. */
  lemma {:induction false} InsertDescAdds(e: Entry, es: seq<Entry>)
    ensures |InsertDesc(e, es)| == |es| + 1 && multiset(InsertDesc(e, es)) == multiset(es) + multiset{e}
  {
    if es != [] && es[0].score > e.score {
      InsertDescAdds(e, es[1..]);
      assert es == [es[0]] + es[1..];
    }
  }

  /** Insertion introduces no score above a bound that the entry and the list respect. */
  lemma {:induction false} InsertDescBounded(e: Entry, es: seq<Entry>, b: int)
    requires e.score <= b && forall i :: 0 <= i < |es| ==> es[i].score <= b
    ensures forall i :: 0 <= i < |InsertDesc(e, es)| ==> InsertDesc(e, es)[i].score <= b
  {
    if es != [] && es[0].score > e.score {
      InsertDescBounded(e, es[1..], b);
    }
  }

  /** Insertion into a ranked list keeps it ranked. */
  lemma {:induction false} InsertDescRanks(e: Entry, es: seq<Entry>)
    requires SortedDesc(es)
    ensures SortedDesc(InsertDesc(e, es))
  {
    if es != [] && es[0].score > e.score {
      var rest := InsertDesc(e, es[1..]);
      InsertDescRanks(e, es[1..]);
      InsertDescBounded(e, es[1..], es[0].score);
      var r := [es[0]] + rest;
      forall i, j | 0 <= i < j < |r| ensures r[i].score >= r[j].score {
        assert r[j] == rest[j - 1];
        if i > 0 { assert r[i] == rest[i - 1]; }
      }
    }
  }

  /** `sort((a, b) => b.score - a.score)`: a stable insertion sort, highest score first. */
  function SortDesc(es: seq<Entry>): seq<Entry>
  {
    if es == [] then [] else InsertDesc(es[0], SortDesc(es[1..]))
  }

  /** The sort ranks its input, highest score first, and is a permutation of it. */
  lemma {:induction false} SortDescRanks(es: seq<Entry>)
    ensures SortedDesc(SortDesc(es))
    ensures |SortDesc(es)| == |es| && multiset(SortDesc(es)) == multiset(es)
  {
    if es != [] {
      SortDescRanks(es[1..]);
      InsertDescRanks(es[0], SortDesc(es[1..]));
      InsertDescAdds(es[0], SortDesc(es[1..]));
      assert es == [es[0]] + es[1..];
    }
  }
}
