/** The text under which the control-plane store keeps a sponsor binding, and the tuple that stands for it
    elsewhere. */
module IdentityKeys {
  import opened IdentityStore

  function Joined(parts: seq<string>): string {
    if parts == [] then "" else if |parts| == 1 then parts[0] else parts[0] + ":" + Joined(parts[1..])
  }

  function EnvironmentText(e: Environment): string {
    match e
    case Staging => "staging"
    case Production => "production"
  }

  /** How addresses and hashes are written, and how versions are. */
  datatype Writing = Writing(hex: nat -> string, decimal: nat -> string)

  ghost predicate Faithful(w: Writing) {
    && (forall m, n | w.hex(m) == w.hex(n) :: m == n)
    && (forall m, n | w.decimal(m) == w.decimal(n) :: m == n)
    && (forall n :: ':' !in w.hex(n)) && (forall n :: ':' !in w.decimal(n))
  }

  function Parts(w: Writing, k: SponsorKey): seq<string> {
    var c := k.scope;
    [w.hex(k.sponsor), EnvironmentText(c.environment), c.appId, c.rpId, c.action, c.policyId, w.decimal(c.policyVersion),
     w.hex(c.policyHash)]
  }

  /** `worldIdentitySponsorKey`. */
  function KeyText(w: Writing, k: SponsorKey): string {
    Joined(Parts(w, k))
  }

  /** The names in a scope that its configuration chooses contain no colon. */
  predicate PlainNames(c: Scope) {
    ':' !in c.appId && ':' !in c.rpId && ':' !in c.action && ':' !in c.policyId
  }

  predicate AllPlain(parts: seq<string>) {
    forall i :: 0 <= i < |parts| ==> ':' !in parts[i]
  }

  /** A text without colons at the head of another does not reach past its first colon. */
  lemma PlainHeadEnds(a: string, rest: string, s: string, n: nat)
    requires ':' !in a && s == a + rest && n < |s| && s[n] == ':'
    ensures |a| <= n
  {
    assert forall i | 0 <= i < |a| :: s[i] == a[i];
  }

  lemma PlainHeads(a: string, rest: string, b: string, rest': string)
    requires ':' !in a && ':' !in b && a + ":" + rest == b + ":" + rest'
    ensures a == b && rest == rest'
  {
    var s := a + ":" + rest;
    assert s == a + (":" + rest) && s == b + (":" + rest');
    PlainHeadEnds(a, ":" + rest, s, |b|);
    PlainHeadEnds(b, ":" + rest', s, |a|);
    assert a == s[..|a|] && b == s[..|a|];
    assert rest == s[|a| + 1..] && rest' == s[|a| + 1..];
  }

  lemma {:induction false} JoinedOnce(xs: seq<string>, ys: seq<string>)
    requires |xs| == |ys| && AllPlain(xs) && AllPlain(ys) && Joined(xs) == Joined(ys)
    ensures xs == ys
  {
    if |xs| > 1 {
      PlainHeads(xs[0], Joined(xs[1..]), ys[0], Joined(ys[1..]));
      JoinedOnce(xs[1..], ys[1..]);
      assert xs == [xs[0]] + xs[1..] && ys == [ys[0]] + ys[1..];
    }
  }

  lemma PlainParts(w: Writing, k: SponsorKey)
    requires Faithful(w) && PlainNames(k.scope)
    ensures AllPlain(Parts(w, k))
  {
  }

  /** With plain names the text identifies the sponsor and every field of the scope, as the tuple does. */
  lemma TextIdentifiesTheKey(w: Writing, k: SponsorKey, l: SponsorKey)
    requires Faithful(w) && PlainNames(k.scope) && PlainNames(l.scope)
    ensures KeyText(w, k) == KeyText(w, l) <==> k == l
  {
    if KeyText(w, k) == KeyText(w, l) {
      PlainParts(w, k);
      PlainParts(w, l);
      var xs, ys := Parts(w, k), Parts(w, l);
      JoinedOnce(xs, ys);
      assert xs[0] == ys[0] && xs[1] == ys[1] && xs[2] == ys[2] && xs[3] == ys[3];
      assert xs[4] == ys[4] && xs[5] == ys[5] && xs[6] == ys[6] && xs[7] == ys[7];
      hide Joined, PlainNames;
      assert k.scope.environment == l.scope.environment by {
        assert "staging"[0] != "production"[0];
      }
    }
  }

  /** A colon at the end of one part can as well begin the next. */
  lemma {:induction false} ColonsMove(front: seq<string>, a: string, b: string, c: string, rest: seq<string>)
    requires rest != []
    ensures Joined(front + [a + ":" + b, c] + rest) == Joined(front + [a, b + ":" + c] + rest)
  {
    var xs, ys := front + [a + ":" + b, c] + rest, front + [a, b + ":" + c] + rest;
    if front == [] {
      assert xs[1..] == [c] + rest && ys[1..] == [b + ":" + c] + rest;
      assert xs[1..][1..] == rest && ys[1..][1..] == rest;
      hide Joined;
      var t := Joined(rest);
      assert (a + ":" + b) + ":" + (c + ":" + t) == a + ":" + ((b + ":" + c) + ":" + t);
    } else {
      assert xs[1..] == front[1..] + [a + ":" + b, c] + rest && ys[1..] == front[1..] + [a, b + ":" + c] + rest;
      ColonsMove(front[1..], a, b, c, rest);
    }
  }

  /** Without plain names it may not: here a colon moves from one name to the next. */
  lemma TwoKeysOneText(w: Writing, k: SponsorKey)
    ensures var k1 := k.(scope := k.scope.(rpId := "rp:1", action := "verify"));
      var k2 := k.(scope := k.scope.(rpId := "rp", action := "1:verify"));
      k1 != k2 && KeyText(w, k1) == KeyText(w, k2)
  {
    var k1 := k.(scope := k.scope.(rpId := "rp:1", action := "verify"));
    var k2 := k.(scope := k.scope.(rpId := "rp", action := "1:verify"));
    var xs, ys := Parts(w, k1), Parts(w, k2);
    hide Joined;
    assert "rp" + ":" + "1" == "rp:1" && "1" + ":" + "verify" == "1:verify";
    assert xs == xs[..3] + ["rp:1", "verify"] + xs[5..];
    assert ys == xs[..3] + ["rp", "1:verify"] + xs[5..];
    ColonsMove(xs[..3], "rp", "1", "verify", xs[5..]);
    assert k1.scope.rpId != k2.scope.rpId by { assert |"rp:1"| != |"rp"|; }
  }
}
