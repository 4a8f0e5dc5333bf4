/** Node identity as etcdfab derives it from its configuration (etcdfab/config/config.go). */
module Config {
  import opened Wrappers
  import opened Text

  const PEER_PORT := 7001
  const CLIENT_PORT := 4001

  datatype Config = Config(
    name: string,
    index: int,
    externalIP: string,
    peerRequireSSL: bool,
    requireSSL: bool,
    dnsSuffix: string,
    machines: seq<string>)
  {
    function NodeName(): string
    {
      ReplaceChar(name, '_', '-') + "-" + DecimalInt(index)
    }

    function AdvertisePeerURL(): string
    {
      if peerRequireSSL then "https://" + NodeName() + ("." + dnsSuffix + ":" + Decimal(PEER_PORT))
      else "http://" + externalIP + (":" + Decimal(PEER_PORT))
    }

    /** The endpoints the member API is called on: one shared DNS name, or every machine in order. */
    method EtcdClientEndpoints() returns (endpoints: seq<string>)
      ensures requireSSL ==> |endpoints| == 1
      ensures requireSSL ==> endpoints[0] == "https://" + dnsSuffix + ":4001"
      ensures !requireSSL ==> |endpoints| == |machines|
      ensures !requireSSL ==>
                forall k :: 0 <= k < |machines| ==> endpoints[k] == "http://" + machines[k] + ":4001"
    {
      Ports();
      if requireSSL {
        return ["https://" + dnsSuffix + ":" + Decimal(CLIENT_PORT)];
      }
      endpoints := [];
      for i := 0 to |machines|
        invariant |endpoints| == i
        invariant forall k :: 0 <= k < i ==> endpoints[k] == "http://" + machines[k] + ":" + Decimal(CLIENT_PORT)
      {
        endpoints := endpoints + ["http://" + machines[i] + ":" + Decimal(CLIENT_PORT)];
      }
    }
  }

  lemma Ports()
    ensures Decimal(PEER_PORT) == "7001" && Decimal(CLIENT_PORT) == "4001"
  {
    assert Decimal(7) == "7" && Decimal(4) == "4";
    OneMoreDigit(7, 0);
    OneMoreDigit(70, 0);
    OneMoreDigit(700, 1);
    OneMoreDigit(4, 0);
    OneMoreDigit(40, 0);
    OneMoreDigit(400, 1);
  }

  lemma OneMoreDigit(n: nat, digit: nat)
    requires 0 < n && digit < 10
    ensures Decimal(10 * n + digit) == Decimal(n) + [Digit(digit)]
  {
  }

  /** The peer URL: with TLS of the node's name below the DNS suffix, else of its address. */
  lemma PeerURLExactly(c: Config)
    ensures c.AdvertisePeerURL() ==
            if c.peerRequireSSL
            then "https://" + ReplaceChar(c.name, '_', '-') + "-" + DecimalInt(c.index) + "." + c.dnsSuffix + ":7001"
            else "http://" + c.externalIP + ":7001"
  {
    Ports();
  }

  /** What a node name stands for: a negative index moves its sign into the name. */
  function Canonical(c: Config): (string, nat)
  {
    var normal := ReplaceChar(c.name, '_', '-');
    if c.index < 0 then (normal + "-", -c.index) else (normal, c.index)
  }

  /** Split a node name at its last dash and read the index. */
  function DecodeNodeName(s: string): Option<(string, nat)>
  {
    match CutLast(s, '-')
    case None => None
    case Some((front, digits)) =>
      if AllDigits(digits) then Some((front, DigitsValue(digits))) else None
  }

  lemma NodeNameCanonical(c: Config)
    ensures c.NodeName() == Canonical(c).0 + "-" + Decimal(Canonical(c).1)
  {
  }

  /** NodeName loses nothing but underscores and the sign of the index. */
  lemma NodeNameDecodes(c: Config)
    ensures DecodeNodeName(c.NodeName()) == Some(Canonical(c))
  {
    var (front, n) := Canonical(c);
    NodeNameCanonical(c);
    assert '-' !in Decimal(n) by {
      assert forall k :: 0 <= k < |Decimal(n)| ==> IsDigit(Decimal(n)[k]);
    }
    CutLastAt(front, '-', Decimal(n));
    DecimalDigits(n);
  }

  /** Two configurations share a node name exactly when they have the same canonical form. */
  lemma NodeNameInjective(a: Config, b: Config)
    ensures a.NodeName() == b.NodeName() <==> Canonical(a) == Canonical(b)
    ensures a.index >= 0 && b.index >= 0 ==>
              (a.NodeName() == b.NodeName() <==>
               ReplaceChar(a.name, '_', '-') == ReplaceChar(b.name, '_', '-') && a.index == b.index)
  {
    NodeNameDecodes(a);
    NodeNameDecodes(b);
    NodeNameCanonical(a);
    NodeNameCanonical(b);
  }

  /** With a negative index two different jobs do collide. */
  lemma NegativeIndexCollides()
    ensures exists a: Config, b: Config ::
              && ReplaceChar(a.name, '_', '-') != ReplaceChar(b.name, '_', '-') && a.index != b.index
              && a.NodeName() == b.NodeName()
  {
    var a := Config("etcd", -1, "", true, true, "", []);
    var b := Config("etcd-", 1, "", true, true, "", []);
    assert |ReplaceChar(a.name, '_', '-')| != |ReplaceChar(b.name, '_', '-')|;
    assert Canonical(a) == Canonical(b) by {
      assert forall k :: 0 <= k < 4 ==> a.name[k] == b.name[k];
      assert ReplaceChar(a.name, '_', '-') + "-" == ReplaceChar(b.name, '_', '-');
    }
    NodeNameInjective(a, b);
  }

  /** With one DNS suffix, the peer URL determines the node (TLS) or its address (plain). */
  lemma PeerURLInjective(a: Config, b: Config)
    requires a.dnsSuffix == b.dnsSuffix
    ensures a.AdvertisePeerURL() == b.AdvertisePeerURL() <==>
            a.peerRequireSSL == b.peerRequireSSL &&
            (if a.peerRequireSSL then a.NodeName() == b.NodeName() else a.externalIP == b.externalIP)
  {
    var ua, ub := a.AdvertisePeerURL(), b.AdvertisePeerURL();
    if ua == ub {
      assert a.peerRequireSSL ==> ua[4] == 's';
      assert !a.peerRequireSSL ==> ua[4] == ':';
      assert b.peerRequireSSL ==> ub[4] == 's';
      assert !b.peerRequireSSL ==> ub[4] == ':';
      if a.peerRequireSSL {
        SameMiddle("https://", a.NodeName(), b.NodeName(), "." + a.dnsSuffix + ":" + Decimal(PEER_PORT));
      } else {
        SameMiddle("http://", a.externalIP, b.externalIP, ":" + Decimal(PEER_PORT));
      }
    }
  }
}
