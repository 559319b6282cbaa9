/**
 The client's address behind trusted proxies: `X-Forwarded-For` is walked from right to left for as long as
 the address reached so far is a trusted proxy. `parse` gives the canonical form of an entry, if it is one.
 */
module ClientAddress {
  import opened Options

  type Parser = string -> Option<string>

  /** The pieces between commas; the empty header has one empty piece. */
  function Split(s: string): (pieces: seq<string>)
    ensures |pieces| > 0
  {
    if s == "" then [""]
    else if s[0] == ',' then [""] + Split(s[1..])
    else var rest := Split(s[1..]); [[s[0]] + rest[0]] + rest[1..]
  }

  function WithCommas(pieces: seq<string>): string {
    if pieces == [] then "" else if |pieces| == 1 then pieces[0] else pieces[0] + "," + WithCommas(pieces[1..])
  }

  /** The pieces, with commas between them, are the header, and no piece has a comma of its own. */
  lemma {:induction false} SplitIsExact(s: string)
    ensures WithCommas(Split(s)) == s
    ensures forall i :: 0 <= i < |Split(s)| ==> ',' !in Split(s)[i]
  {
    if s != "" {
      SplitIsExact(s[1..]);
      var rest := Split(s[1..]);
      if s[0] == ',' {
        assert Split(s)[1..] == rest;
      } else {
        assert Split(s)[1..] == rest[1..] && |Split(s)| == |rest|;
        assert s == [s[0]] + s[1..];
      }
    }
  }

  lemma {:induction false} SplitPrepended(a: string, b: string)
    ensures Split(a + "," + b) == Split(a) + Split(b)
  {
    var s := a + "," + b;
    if a == "" {
      assert s[1..] == b;
    } else {
      assert s[0] == a[0] && s[1..] == a[1..] + "," + b;
      SplitPrepended(a[1..], b);
    }
  }

  /** The address j steps to the left of the peer: the peer itself, then the hops from the right. */
  function Hop(parse: Parser, peer: string, hops: seq<string>, j: nat): Option<string>
    requires j <= |hops|
  {
    if j == 0 then Some(peer) else parse(hops[|hops| - j])
  }

  /** The walk passes k hops: each address before the k-th parses and is trusted, the k-th parses. */
  predicate Passes(parse: Parser, peer: string, trusted: set<string>, hops: seq<string>, k: nat) {
    && k <= |hops| && Hop(parse, peer, hops, k).Some?
    && forall j :: 0 <= j < k ==> Hop(parse, peer, hops, j).Some? && Hop(parse, peer, hops, j).value in trusted
  }

  /** It goes no further: the address is not trusted or the next hop is not an address. */
  predicate Stops(parse: Parser, peer: string, trusted: set<string>, hops: seq<string>, k: nat)
    requires Passes(parse, peer, trusted, hops, k)
  {
    Hop(parse, peer, hops, k).value !in trusted || (k < |hops| && Hop(parse, peer, hops, k + 1).None?)
  }

  /** The address the whole header leads to: as far as the walk can pass. */
  predicate Leads(parse: Parser, peer: string, trusted: set<string>, hops: seq<string>, k: nat, address: string) {
    && Passes(parse, peer, trusted, hops, k) && Hop(parse, peer, hops, k) == Some(address)
    && (k == |hops| || Stops(parse, peer, trusted, hops, k))
  }

  method ClientIp(parse: Parser, client: Option<string>, trusted: set<string>, header: string) returns (current: string)
    ensures exists k: nat :: Leads(parse, Peer(client), trusted, Split(header), k, current)
  {
    hide Split;
    current := Peer(client);
    ghost var k := 0;
    var hops := Split(header);
    var i := |hops|;
    while i > 0
      invariant 0 <= i <= |hops| && k == |hops| - i
      invariant Passes(parse, Peer(client), trusted, hops, k) && Hop(parse, Peer(client), hops, k) == Some(current)
    {
      if current !in trusted {
        assert Leads(parse, Peer(client), trusted, hops, k, current);
        return;
      }
      var value := parse(hops[i - 1]);
      if value.None? {
        assert Leads(parse, Peer(client), trusted, hops, k, current);
        return;
      }
      current := value.value;
      i := i - 1;
      k := k + 1;
    }
    assert Leads(parse, Peer(client), trusted, hops, k, current);
  }

  function Peer(client: Option<string>): string {
    if client.Some? then client.value else "unknown"
  }

  /** The header leads to one address only. */
  lemma LeadsToOne(parse: Parser, peer: string, trusted: set<string>, hops: seq<string>, k1: nat, a1: string, k2: nat, a2: string)
    requires Leads(parse, peer, trusted, hops, k1, a1) && Leads(parse, peer, trusted, hops, k2, a2)
    ensures k1 == k2 && a1 == a2
  {
  }

  lemma HopsKept(parse: Parser, peer: string, more: seq<string>, hops: seq<string>, j: nat)
    requires j <= |hops|
    ensures Hop(parse, peer, more + hops, j) == Hop(parse, peer, hops, j)
  {
  }

  /** What a client writes to the left of where the walk stopped changes nothing. */
  lemma PrependingIsIgnored(parse: Parser, peer: string, trusted: set<string>, extra: string, header: string, k: nat, address: string)
    requires Leads(parse, peer, trusted, Split(header), k, address) && Stops(parse, peer, trusted, Split(header), k)
    ensures Leads(parse, peer, trusted, Split(extra + "," + header), k, address)
  {
    hide Split, Hop;
    var hops, more := Split(header), Split(extra);
    SplitPrepended(extra, header);
    forall j | 0 <= j <= |hops|
      ensures Hop(parse, peer, more + hops, j) == Hop(parse, peer, hops, j)
    {
      HopsKept(parse, peer, more, hops, j);
    }
  }

  /** Only a walk that ends on a trusted address with the whole header read goes on: one more entry that is an address is believed. */
  lemma PrependingIsBelieved(parse: Parser, peer: string, trusted: set<string>, extra: string, header: string, address: string, claimed: string)
    requires Leads(parse, peer, trusted, Split(header), |Split(header)|, address) && address in trusted
    requires Split(extra) == [extra] && parse(extra) == Some(claimed)
    ensures Leads(parse, peer, trusted, Split(extra + "," + header), |Split(header)| + 1, claimed)
  {
    hide Split;
    var hops := Split(header);
    SplitPrepended(extra, header);
    forall j | 0 <= j <= |hops|
      ensures Hop(parse, peer, [extra] + hops, j) == Hop(parse, peer, hops, j)
    {
      HopsKept(parse, peer, [extra], hops, j);
    }
  }

  /** Whatever a client writes to the left of this header, the address stays. */
  ghost predicate Immune(parse: Parser, peer: string, trusted: set<string>, header: string, address: string) {
    forall extra, k: nat, other :: Leads(parse, peer, trusted, Split(extra + "," + header), k, other) ==> other == address
  }

  /** As long as any other address can be written at all, a header is immune exactly when its walk stopped. */
  lemma PrependingIsHarmlessIff(parse: Parser, peer: string, trusted: set<string>, header: string, k: nat, address: string, entry: string)
    requires Leads(parse, peer, trusted, Split(header), k, address)
    requires Split(entry) == [entry] && parse(entry).Some? && parse(entry).value != address
    ensures Immune(parse, peer, trusted, header, address) <==> Stops(parse, peer, trusted, Split(header), k)
  {
    if Stops(parse, peer, trusted, Split(header), k) {
      forall extra, j: nat, other | Leads(parse, peer, trusted, Split(extra + "," + header), j, other)
        ensures other == address
      {
        PrependingIsIgnored(parse, peer, trusted, extra, header, k, address);
        LeadsToOne(parse, peer, trusted, Split(extra + "," + header), k, address, j, other);
      }
    } else {
      PrependingIsBelieved(parse, peer, trusted, entry, header, address, parse(entry).value);
    }
  }
}
