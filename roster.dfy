/** The peer roster (`config.peers`): an ordered sequence of peers, and the
    expressions over it that the control-plane handlers use. */
module Roster {
  import opened Common

  /** An entry of `config.peers`. The endpoint is whatever JSON value the PUT
      request carried: the handler checks only that it is not undefined. */
  datatype Peer = Peer(name: string, endpoint: Value)

  /** `peers.some(peer => peer.name === name)` */
  predicate Has(peers: seq<Peer>, name: string)
  {
    exists i :: 0 <= i < |peers| && peers[i].name == name
  }

  /** No two entries share a name. */
  ghost predicate UniqueNames(peers: seq<Peer>)
  {
    forall i, j :: 0 <= i < j < |peers| ==> peers[i].name != peers[j].name
  }

  /** How many entries carry `name`. */
  function Count(peers: seq<Peer>, name: string): (n: nat)
  {
    if |peers| == 0 then 0
    else (if peers[0].name == name then 1 else 0) + Count(peers[1..], name)
  }

  /** `peers.find(peer => peer.name === name)`: some entry with that name, or
      undefined when there is none. `FindFirst` shows it is the first one. */
  function Find(peers: seq<Peer>, name: string): (r: Option<Peer>)
    ensures r.Some? <==> Has(peers, name)
    ensures r.Some? ==> r.value.name == name && r.value in peers
  {
    if |peers| == 0 then None
    else if peers[0].name == name then Some(peers[0])
    else
      assert Has(peers, name) ==> Has(peers[1..], name) by {
        if Has(peers, name) {
          var i :| 0 <= i < |peers| && peers[i].name == name;
          assert peers[1..][i - 1].name == name;
        }
      }
      Find(peers[1..], name)
  }

  /** `Find` returns the first entry carrying the name. */
  lemma {:induction false} FindFirst(peers: seq<Peer>, name: string, i: nat)
    requires i < |peers| && peers[i].name == name
    requires forall j :: 0 <= j < i ==> peers[j].name != name
    ensures Find(peers, name) == Some(peers[i])
  {
    if i > 0 {
      FindFirst(peers[1..], name, i - 1);
    }
  }

  /** With unique names, the entry `Find` returns is the only one with that name. */
  lemma FindUnique(peers: seq<Peer>, i: nat)
    requires UniqueNames(peers) && i < |peers|
    ensures Find(peers, peers[i].name) == Some(peers[i])
  {
  }

  /** The roster after PUT /peers/:name: a peer is appended only when no entry
      carries the name yet; an existing entry, endpoint included, is kept. */
  function Upsert(peers: seq<Peer>, name: string, endpoint: Value): (r: seq<Peer>)
    ensures |peers| <= |r| && r[..|peers|] == peers
    ensures Has(peers, name) ==> r == peers
    ensures !Has(peers, name) ==> |r| == |peers| + 1 && r[|peers|] == Peer(name, endpoint)
    ensures Has(r, name)
  {
    if Find(peers, name).None? then peers + [Peer(name, endpoint)] else peers
  }

  /** `peers.filter(peer => peer.name !== name)`, the roster after DELETE /peers/:name. */
  function Without(peers: seq<Peer>, name: string): (r: seq<Peer>)
  {
    if |peers| == 0 then []
    else if peers[0].name == name then Without(peers[1..], name)
    else [peers[0]] + Without(peers[1..], name)
  }

  lemma {:induction false} CountAppend(a: seq<Peer>, b: seq<Peer>, name: string)
    ensures Count(a + b, name) == Count(a, name) + Count(b, name)
  {
    if |a| > 0 {
      assert (a + b)[1..] == a[1..] + b;
      CountAppend(a[1..], b, name);
    } else {
      assert a + b == b;
    }
  }

  /** A name occurs at all exactly when its count is positive. */
  lemma {:induction false} CountPositive(peers: seq<Peer>, name: string)
    ensures Count(peers, name) > 0 <==> Has(peers, name)
  {
    if |peers| > 0 {
      CountPositive(peers[1..], name);
      if Has(peers[1..], name) {
        var i :| 0 <= i < |peers[1..]| && peers[1..][i].name == name;
        assert peers[i + 1].name == name;
      }
      if Has(peers, name) && peers[0].name != name {
        var i :| 0 <= i < |peers| && peers[i].name == name;
        assert peers[1..][i - 1].name == name;
      }
    }
  }

  /** Unique names: every name occurs at most once. */
  lemma {:induction false} UniqueCount(peers: seq<Peer>, name: string)
    requires UniqueNames(peers)
    ensures Count(peers, name) <= 1
  {
    if |peers| > 0 {
      assert UniqueNames(peers[1..]) by {
        forall i, j | 0 <= i < j < |peers[1..]|
          ensures peers[1..][i].name != peers[1..][j].name
        {
          assert peers[i + 1].name != peers[j + 1].name;
        }
      }
      UniqueCount(peers[1..], name);
      if peers[0].name == name {
        forall j | 0 <= j < |peers[1..]| ensures peers[1..][j].name != name {
          assert peers[0].name != peers[j + 1].name;
        }
        CountPositive(peers[1..], name);
      }
    }
  }

  /** Upsert keeps names unique, and afterwards the name occurs exactly once. */
  lemma UpsertKeepsUnique(peers: seq<Peer>, name: string, endpoint: Value)
    requires UniqueNames(peers)
    ensures UniqueNames(Upsert(peers, name, endpoint))
    ensures Count(Upsert(peers, name, endpoint), name) == 1
  {
    var r := Upsert(peers, name, endpoint);
    CountPositive(peers, name);
    if Has(peers, name) {
      UniqueCount(peers, name);
    } else {
      CountAppend(peers, [Peer(name, endpoint)], name);
      assert Count([Peer(name, endpoint)], name) == 1;
      forall i, j | 0 <= i < j < |r| ensures r[i].name != r[j].name {
        if j == |peers| {
          assert r[i] == peers[i];
        }
      }
    }
  }

  /** A second upsert of the same name changes nothing, whatever its endpoint. */
  lemma UpsertIdempotent(peers: seq<Peer>, name: string, e1: Value, e2: Value)
    ensures Upsert(Upsert(peers, name, e1), name, e2) == Upsert(peers, name, e1)
  {
  }

  /** The filter keeps exactly the entries whose name differs. */
  lemma {:induction false} WithoutMembers(peers: seq<Peer>, name: string, q: Peer)
    ensures q in Without(peers, name) <==> q in peers && q.name != name
  {
    if |peers| > 0 {
      WithoutMembers(peers[1..], name, q);
      assert peers == [peers[0]] + peers[1..];
    }
  }

  /** The filter distributes over concatenation: the kept entries stay in their order. */
  lemma {:induction false} WithoutAppend(a: seq<Peer>, b: seq<Peer>, name: string)
    ensures Without(a + b, name) == Without(a, name) + Without(b, name)
  {
    if |a| > 0 {
      assert (a + b)[1..] == a[1..] + b;
      WithoutAppend(a[1..], b, name);
    } else {
      assert a + b == b;
    }
  }

  /** The filter removes every entry with that name and no other. */
  lemma {:induction false} WithoutCount(peers: seq<Peer>, name: string, other: string)
    ensures Count(Without(peers, name), other) == if other == name then 0 else Count(peers, other)
  {
    if |peers| > 0 {
      WithoutCount(peers[1..], name, other);
      if peers[0].name != name {
        assert ([peers[0]] + Without(peers[1..], name))[1..] == Without(peers[1..], name);
      }
    }
  }

  /** Filtering out a name that is not in the roster changes nothing. */
  lemma {:induction false} WithoutAbsent(peers: seq<Peer>, name: string)
    requires !Has(peers, name)
    ensures Without(peers, name) == peers
  {
    if |peers| > 0 {
      forall i | 0 <= i < |peers[1..]| ensures peers[1..][i].name != name {
        assert peers[1..][i] == peers[i + 1];
      }
      WithoutAbsent(peers[1..], name);
      assert peers[0].name != name;
      assert [peers[0]] + peers[1..] == peers;
    }
  }

  /** Delete keeps names unique; with unique names it removes exactly one entry. */
  lemma {:induction false} WithoutKeepsUnique(peers: seq<Peer>, name: string)
    requires UniqueNames(peers)
    ensures UniqueNames(Without(peers, name))
    ensures !Has(Without(peers, name), name)
    ensures Has(peers, name) ==> |Without(peers, name)| == |peers| - 1
  {
    if |peers| > 0 {
      var rest := peers[1..];
      assert UniqueNames(rest) by {
        forall i, j | 0 <= i < j < |rest| ensures rest[i].name != rest[j].name {
          assert peers[i + 1].name != peers[j + 1].name;
        }
      }
      WithoutKeepsUnique(rest, name);
      var w := Without(rest, name);
      if peers[0].name == name {
        forall j | 0 <= j < |rest| ensures rest[j].name != name {
          assert peers[0].name != peers[j + 1].name;
        }
        WithoutAbsent(rest, name);
      } else {
        var r := [peers[0]] + w;
        forall i, j | 0 <= i < j < |r| ensures r[i].name != r[j].name {
          if i == 0 {
            WithoutMembers(rest, name, r[j]);
            var k :| 0 <= k < |rest| && rest[k] == r[j];
            assert peers[0].name != peers[k + 1].name;
          } else {
            assert r[i] == w[i - 1] && r[j] == w[j - 1];
          }
        }
        if Has(peers, name) {
          var k :| 0 <= k < |peers| && peers[k].name == name;
          assert rest[k - 1].name == name;
        }
        forall k | 0 <= k < |r| ensures r[k].name != name {
          if k > 0 {
            assert r[k] == w[k - 1];
            WithoutMembers(rest, name, r[k]);
          }
        }
      }
    }
  }
}
