/** Which delivery tokens a mailbox honours, over every run. */
module MailboxTokens {
  import opened Crypto
  import opened Mailbox
  import opened MailboxRun

  /** The tokens registered since the account was last deleted, in order; a short one is turned away. */
  function RegisteredBy(h: seq<string>, ev: Event): seq<string> {
    match ev
    case Register(token) => if |token| < 16 then h else h + [token]
    case DeleteAccount => []
    case _ => h
  }

  function Registered(h: seq<string>, evs: seq<Event>): seq<string>
    decreases |evs|
  {
    if evs == [] then h else Registered(RegisteredBy(h, evs[0]), evs[1..])
  }

  /** The other tokens registered after the last time this one was. */
  function Since(h: seq<string>, token: string): set<string> {
    if h == [] || h[|h| - 1] == token then {} else Since(h[..|h| - 1], token) + {h[|h| - 1]}
  }

  function Few(tokens: seq<string>): set<string> {
    set t | t in tokens
  }

  /** In front of each token stand just those registered after it. */
  ghost predicate Placed(tokens: seq<string>, h: seq<string>, k: nat)
    requires k < |tokens|
  {
    tokens[k] in h && Since(h, tokens[k]) == Few(tokens[..k])
  }

  /** Newest first; what is missing has at least three after it. */
  ghost predicate Newest(tokens: seq<string>, h: seq<string>) {
    && |tokens| <= 3 && NoDuplicates(tokens)
    && (forall k: nat :: k < |tokens| ==> Placed(tokens, h, k))
    && (forall t :: t in h && t !in tokens ==> |Since(h, t)| >= 3)
  }

  ghost predicate NoDuplicates(tokens: seq<string>) {
    forall i, j :: 0 <= i < j < |tokens| ==> tokens[i] != tokens[j]
  }

  lemma {:induction false} WithoutAbsent(tokens: seq<string>, x: string)
    requires x !in tokens
    ensures Without(tokens, x) == tokens
  {
    if tokens != [] {
      WithoutAbsent(tokens[1..], x);
    }
  }

  lemma {:induction false} WithoutAt(tokens: seq<string>, p: nat)
    requires NoDuplicates(tokens) && p < |tokens|
    ensures Without(tokens, tokens[p]) == tokens[..p] + tokens[p + 1..]
  {
    if p == 0 {
      WithoutAbsent(tokens[1..], tokens[0]);
    } else {
      WithoutAt(tokens[1..], p - 1);
    }
  }

  /** The list of tokens after one more, with the newcomer in front of what stays. */
  function After(tokens: seq<string>, x: string): seq<string> {
    var next := [x] + Without(tokens, x);
    if |next| > 3 then next[..3] else next
  }

  lemma SinceNext(h: seq<string>, x: string, t: string)
    ensures Since(h + [x], t) == if t == x then {} else Since(h, t) + {x}
  {
    assert (h + [x])[..|h|] == h;
  }

  lemma FewSize(tokens: seq<string>)
    requires NoDuplicates(tokens)
    ensures |Few(tokens)| == |tokens|
  {
    if tokens != [] {
      var n := |tokens| - 1;
      FewSize(tokens[..n]);
      assert Few(tokens) == Few(tokens[..n]) + {tokens[n]};
      assert tokens[n] !in Few(tokens[..n]);
    }
  }

  /** A token that was registered before moves to the front. */
  lemma MovesToFront(tokens: seq<string>, h: seq<string>, p: nat)
    requires Newest(tokens, h) && p < |tokens|
    ensures Newest(After(tokens, tokens[p]), h + [tokens[p]])
  {
    var x := tokens[p];
    WithoutAt(tokens, p);
    var r := [x] + tokens[..p] + tokens[p + 1..];
    assert After(tokens, x) == r;
    forall k: nat | k < |r| ensures Placed(r, h + [x], k) {
      PlacedAfterMove(tokens, h, p, k);
    }
    forall t | t in h + [x] && t !in r ensures |Since(h + [x], t)| >= 3 {
      assert tokens[..p] + [x] + tokens[p + 1..] == tokens;
      assert t !in tokens;
      StillMissing(h, x, t);
    }
    assert NoDuplicates(r);
  }

  lemma PlacedAfterMove(tokens: seq<string>, h: seq<string>, p: nat, k: nat)
    requires p < |tokens| && k < |tokens| && NoDuplicates(tokens)
    requires forall j: nat :: j < |tokens| ==> Placed(tokens, h, j)
    ensures Placed([tokens[p]] + tokens[..p] + tokens[p + 1..], h + [tokens[p]], k)
  {
    var x := tokens[p];
    var r := [x] + tokens[..p] + tokens[p + 1..];
    SinceNext(h, x, r[k]);
    if k > p {
      assert Placed(tokens, h, k) && r[k] == tokens[k];
      assert r[..k] == [x] + tokens[..p] + tokens[p + 1..k];
      assert tokens[..k] == tokens[..p] + [x] + tokens[p + 1..k];
    } else if k > 0 {
      assert Placed(tokens, h, k - 1) && r[k] == tokens[k - 1];
      assert r[..k] == [x] + tokens[..k - 1];
    }
  }

  lemma StillMissing(h: seq<string>, x: string, t: string)
    requires t != x && |Since(h, t)| >= 3
    ensures |Since(h + [x], t)| >= 3
  {
    SinceNext(h, x, t);
    Subset(Since(h, t), Since(h, t) + {x});
  }

  lemma Subset(a: set<string>, b: set<string>)
    requires a <= b
    ensures |a| <= |b|
  {
    assert b == a + (b - a);
  }

  /** A new one goes in front, and with three before it the oldest goes. */
  lemma JoinsInFront(tokens: seq<string>, h: seq<string>, x: string)
    requires Newest(tokens, h) && x !in tokens
    ensures Newest(After(tokens, x), h + [x])
  {
    WithoutAbsent(tokens, x);
    var n := if |tokens| == 3 then 2 else |tokens|;
    var r := [x] + tokens[..n];
    assert After(tokens, x) == r;
    assert NoDuplicates(r);
    forall k: nat | k < |r| ensures Placed(r, h + [x], k) {
      PlacedBehind(tokens, h, x, n, k);
    }
    forall t | t in h + [x] && t !in r ensures |Since(h + [x], t)| >= 3 {
      if t in tokens {
        assert t == tokens[2];
        OldestGoes(tokens, h, x);
      } else {
        StillMissing(h, x, t);
      }
    }
  }

  lemma PlacedBehind(tokens: seq<string>, h: seq<string>, x: string, n: nat, k: nat)
    requires n <= |tokens| && k <= n && x !in tokens
    requires k > 0 ==> Placed(tokens, h, k - 1)
    ensures Placed([x] + tokens[..n], h + [x], k)
  {
    var r := [x] + tokens[..n];
    SinceNext(h, x, r[k]);
    if k > 0 {
      assert r[..k] == [x] + tokens[..k - 1];
    }
  }

  lemma OldestGoes(tokens: seq<string>, h: seq<string>, x: string)
    requires NoDuplicates(tokens) && x !in tokens && |tokens| == 3 && Placed(tokens, h, 2)
    ensures |Since(h + [x], tokens[2])| >= 3
  {
    SinceNext(h, x, tokens[2]);
    FewSize(tokens[..2]);
  }

  lemma StepKeepsNewest(n: Net, h: seq<string>, ev: Event)
    requires Newest(n.box.tokens, h)
    ensures Newest(Step(n, ev).box.tokens, RegisteredBy(h, ev))
  {
    if ev.Register? && |ev.token| >= 16 {
      assert Step(n, ev).box.tokens == After(n.box.tokens, ev.token);
      if ev.token in n.box.tokens {
        var p :| 0 <= p < |n.box.tokens| && n.box.tokens[p] == ev.token;
        MovesToFront(n.box.tokens, h, p);
      } else {
        JoinsInFront(n.box.tokens, h, ev.token);
      }
    }
  }

  lemma {:induction false} RunKeepsNewest(n: Net, h: seq<string>, evs: seq<Event>)
    requires Newest(n.box.tokens, h)
    ensures Newest(StepAll(n, evs).box.tokens, Registered(h, evs))
    decreases |evs|
  {
    if evs != [] {
      StepKeepsNewest(n, h, evs[0]);
      RunKeepsNewest(Step(n, evs[0]), RegisteredBy(h, evs[0]), evs[1..]);
    }
  }

  /**
   Whatever happened, a token is honoured if and only if its owner registered it since the account
   was last deleted and fewer than three others after it.
   */
  lemma HonouredExactly(clock: int, evs: seq<Event>, token: string)
    ensures token in StepAll(Empty(clock), evs).box.tokens
       <==> token in Registered([], evs) && |Since(Registered([], evs), token)| < 3
  {
    RunKeepsNewest(Empty(clock), [], evs);
    var n := StepAll(Empty(clock), evs);
    if token in n.box.tokens {
      var k :| 0 <= k < |n.box.tokens| && n.box.tokens[k] == token;
      assert Placed(n.box.tokens, Registered([], evs), k);
      FewSize(n.box.tokens[..k]);
    }
  }
}
