/**
  The key under which a relay connection is pooled (mailgw-go/internal/deliver/pool.go, poolKey), and
  exactly which relays it tells apart.
 */
module PoolKey {
  import Numbers
  import Text

  datatype Policy = Cleartext | Opportunistic | Required

  const NUL: string := "\0"

  function PolicyText(p: Policy): string {
    match p
    case Cleartext => "none"
    case Opportunistic => "opportunistic"
    case Required => "required"
  }

  /** What a relay table admits (mailgw-go/internal/relays/relays.go, NewTable). */
  predicate Admitted(exchange: string, port: int) {
    Text.Trim(exchange) != "" && 1 <= port <= 65535
  }

  /** Relay.Addr */
  function Addr(exchange: string, port: int): string
    requires Admitted(exchange, port)
  {
    exchange + ":" + Numbers.Decimal(port)
  }

  ghost predicate IsAddr(s: string) {
    exists exchange, port :: Admitted(exchange, port) && s == Addr(exchange, port)
  }

  /** Everything a key is made of. */
  datatype Identity = Identity(addr: string, user: string, policy: Policy, local: string)

  function Key(id: Identity): string {
    id.addr + NUL + (id.user + NUL + (PolicyText(id.policy) + NUL + id.local))
  }

  predicate NulFree(s: string) {
    '\0' !in s
  }

  /** Where the key's relay leads, and as whom it logs in. */
  function Login(id: Identity): string { id.addr + NUL + id.user }

  /** Before the user's end there is a NUL, other than the one after the address, with an address before it. */
  ghost predicate Ambiguous(id: Identity) {
    exists a :: 0 <= a < |Login(id)| && a != |id.addr| && Login(id)[a] == '\0' && IsAddr(Login(id)[..a])
  }

  lemma PolicyTextInjective(p: Policy, q: Policy)
    requires PolicyText(p) == PolicyText(q)
    ensures p == q
  {
    assert |PolicyText(Cleartext)| == 4 && |PolicyText(Opportunistic)| == 13 && |PolicyText(Required)| == 8;
  }

  // ---------------------------------------------------------------- cutting a key

  /** A NUL-free first field is cut off at one place only. */
  lemma CutUnique(a: string, x: string, b: string, y: string)
    requires NulFree(a) && NulFree(b)
    requires a + NUL + x == b + NUL + y
    ensures a == b && x == y
  {
    var s := a + NUL + x;
    assert s[|a|] == '\0' && s[|b|] == '\0';
    assert |a| == |b|;
    assert a == s[..|a|] == b;
    assert x == s[|a| + 1..] == y;
  }

  lemma LastNul(x: string, a: string)
    requires NulFree(a)
    ensures forall i :: |x| < i < |x + NUL + a| ==> (x + NUL + a)[i] != '\0'
  {
    forall i | |x| < i < |x + NUL + a| ensures (x + NUL + a)[i] != '\0' {
      assert (x + NUL + a)[i] == a[i - |x| - 1];
    }
  }

  /** So is a NUL-free last one. */
  lemma LastCutUnique(x: string, a: string, y: string, b: string)
    requires NulFree(a) && NulFree(b)
    requires x + NUL + a == y + NUL + b
    ensures x == y && a == b
  {
    var s := x + NUL + a;
    assert s[|x|] == '\0' && s[|y|] == '\0';
    LastNul(x, a);
    LastNul(y, b);
    assert |x| == |y|;
    assert x == s[..|x|] == y;
    assert a == s[|x| + 1..] == b;
  }

  lemma TextIsPlain(p: Policy)
    ensures NulFree(PolicyText(p))
  {
  }

  lemma SameEnd(x: string, y: string, end: string)
    requires x + end == y + end
    ensures x == y
  {
    assert x == (x + end)[..|x|] && y == (y + end)[..|y|];
  }

  lemma KeyByLogin(id: Identity)
    ensures Key(id) == Login(id) + NUL + PolicyText(id.policy) + (NUL + id.local)
  {
  }

  /** For one local name a key tells the policy, and the address and the user taken together. */
  lemma KeyTellsLogin(id: Identity, id': Identity)
    requires Key(id) == Key(id') && id.local == id'.local
    ensures id.policy == id'.policy && Login(id) == Login(id')
  {
    KeyByLogin(id);
    KeyByLogin(id');
    SameEnd(Login(id) + NUL + PolicyText(id.policy), Login(id') + NUL + PolicyText(id'.policy), NUL + id.local);
    TextIsPlain(id.policy);
    TextIsPlain(id'.policy);
    LastCutUnique(Login(id), PolicyText(id.policy), Login(id'), PolicyText(id'.policy));
    PolicyTextInjective(id.policy, id'.policy);
  }

  lemma LoginParts(id: Identity)
    ensures |id.addr| < |Login(id)| && Login(id)[|id.addr|] == '\0'
    ensures Login(id)[..|id.addr|] == id.addr && Login(id)[|id.addr| + 1..] == id.user
  {
  }

  // ---------------------------------------------------------------- what a key tells apart

  /** Under one local name, a relay that is not ambiguous shares its key with no other relay, whatever that one
      is made of. */
  lemma KeyIsItsOwn(id: Identity, id': Identity)
    requires IsAddr(id.addr) && IsAddr(id'.addr) && id.local == id'.local
    requires !Ambiguous(id) && Key(id) == Key(id')
    ensures id == id'
  {
    KeyTellsLogin(id, id');
    LoginParts(id);
    LoginParts(id');
    assert |id'.addr| == |id.addr|;
  }

  /** An ambiguous relay shares its key with another one, with its policy and its local name, that leads
      elsewhere and authenticates as somebody else. */
  lemma KeyConfuses(id: Identity) returns (id': Identity)
    requires IsAddr(id.addr) && Ambiguous(id)
    ensures IsAddr(id'.addr) && Key(id') == Key(id) && id'.policy == id.policy && id'.local == id.local
    ensures id'.addr != id.addr && id'.user != id.user
  {
    var s := Login(id);
    var a :| 0 <= a < |s| && a != |id.addr| && s[a] == '\0' && IsAddr(s[..a]);
    id' := id.(addr := s[..a], user := s[a + 1..]);
    LoginParts(id);
    assert Login(id') == s by { CutAt(s, a); }
    KeyByLogin(id);
    KeyByLogin(id');
  }

  lemma CutAt(s: string, a: nat)
    requires a < |s| && s[a] == '\0'
    ensures s == s[..a] + NUL + s[a + 1..]
  {
  }

  /** Exactly the relays that are not ambiguous have a key of their own. */
  lemma OwnKeyIffUnambiguous(id: Identity)
    requires IsAddr(id.addr)
    ensures !Ambiguous(id) <==>
            forall id': Identity :: IsAddr(id'.addr) && id'.local == id.local && Key(id') == Key(id) ==> id' == id
  {
    if Ambiguous(id) {
      var id' := KeyConfuses(id);
      assert id' != id;
    } else {
      forall id': Identity | IsAddr(id'.addr) && id'.local == id.local && Key(id') == Key(id) ensures id' == id {
        KeyIsItsOwn(id, id');
      }
    }
  }

  /** Without a NUL in the address and the user there is nothing to cut elsewhere. */
  lemma PlainIsUnambiguous(id: Identity)
    requires NulFree(id.addr) && NulFree(id.user)
    ensures !Ambiguous(id)
  {
    var s := Login(id);
    forall a | 0 <= a < |s| && a != |id.addr| ensures s[a] != '\0' {
      if a < |id.addr| { assert s[a] == id.addr[a]; } else { assert s[a] == id.user[a - |id.addr| - 1]; }
    }
  }

  lemma TailTells(p: Policy, x: string, q: Policy, y: string)
    requires PolicyText(p) + NUL + x == PolicyText(q) + NUL + y
    ensures p == q && x == y
  {
    CutUnique(PolicyText(p), x, PolicyText(q), y);
    PolicyTextInjective(p, q);
  }

  /** Two identities whose address and user are free of NUL share a key only if they are the
      same identity; the local name may be anything. */
  lemma KeyIdentifies(id: Identity, id': Identity)
    requires NulFree(id.addr) && NulFree(id.user) && NulFree(id'.addr) && NulFree(id'.user)
    requires Key(id) == Key(id')
    ensures id == id'
  {
    var t, t' := PolicyText(id.policy) + NUL + id.local, PolicyText(id'.policy) + NUL + id'.local;
    CutUnique(id.addr, id.user + NUL + t, id'.addr, id'.user + NUL + t');
    CutUnique(id.user, t, id'.user, t');
    TailTells(id.policy, id.local, id'.policy, id'.local);
  }

  /** Two relays that a table admits, on different hosts and for different users, under one key: what follows
      the NUL in the user of one is the user of the other. */
  lemma TwoRelaysOneKey(exchange: string, port: int, x: string, port': int, user: string, policy: Policy, local: string)
    requires Admitted(exchange, port) && 1 <= port' <= 65535
    ensures var host := Addr(exchange, port) + NUL + x;
      && Admitted(host, port')
      && Key(Identity(Addr(exchange, port), x + ":" + Numbers.Decimal(port') + NUL + user, policy, local)) ==
         Key(Identity(Addr(host, port'), user, policy, local))
  {
    var addr, q := Addr(exchange, port), Numbers.Decimal(port');
    assert addr[|exchange|] == ':' && (addr + NUL + x)[|exchange|] == ':';
    Text.TrimKeeps(addr + NUL + x, |exchange|);
    Regroup(addr, x, q, user, PolicyText(policy) + NUL + local);
  }

  lemma Regroup(addr: string, x: string, q: string, user: string, rest: string)
    ensures addr + NUL + ((x + ":" + q + NUL + user) + NUL + rest) ==
            ((addr + NUL + x) + ":" + q) + NUL + (user + NUL + rest)
  {
  }
}
