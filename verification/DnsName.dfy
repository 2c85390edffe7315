/** DNS names: the validator's loops accept exactly the label grammar, and every accepted name fits and
    survives the wire format (sections 2.3.4 and 3.1 of RFC 1035). Strings are sequences of bytes. */
module DnsName {

  const DOT := '.'

  predicate AlphaNumeric(c: char) { 'a' <= c <= 'z' || 'A' <= c <= 'Z' || '0' <= c <= '9' }

  /** A letter or digit of ASCII, by its code. */
  predicate LetterOrDigit(c: char) {
    var code := c as int;
    65 <= code <= 90 || 97 <= code <= 122 || 48 <= code <= 57
  }

  /** 1 to 63 letters, digits, hyphens and, if allowed, underscores; no hyphen at either end. */
  ghost predicate IsLabel(lbl: string, underscore: bool) {
    && 1 <= |lbl| <= 63
    && (forall i | 0 <= i < |lbl| :: LetterOrDigit(lbl[i]) || lbl[i] == '-' || (underscore && lbl[i] == '_'))
    && lbl[0] != '-' && lbl[|lbl| - 1] != '-'
  }

  /** Labels with dots between them. */
  function Join(labels: seq<string>): string
    requires labels != []
  {
    if |labels| == 1 then labels[0] else labels[0] + [DOT] + Join(labels[1..])
  }

  /** The grammar: some labels joined by dots, 1 to 253 bytes, with or without a final dot. */
  ghost predicate IsName(s: string, underscore: bool) {
    exists labels: seq<string> | labels != [] ::
      && (forall l | l in labels :: IsLabel(l, underscore))
      && |Join(labels)| <= 253
      && (s == Join(labels) || s == Join(labels) + [DOT])
  }

  // ---- the source's operations ----

  function TrimDot(s: string): string { if s != "" && s[|s| - 1] == DOT then s[..|s| - 1] else s }

  /** strings.Split on a dot. */
  function Split(s: string): (r: seq<string>)
    ensures r != []
  {
    if s == "" then [""]
    else if s[0] == DOT then [""] + Split(s[1..])
    else
      var rest := Split(s[1..]);
      [[s[0]] + rest[0]] + rest[1..]
  }

  lemma JoinEmptyHead(labels: seq<string>)
    requires labels != []
    ensures Join([""] + labels) == [DOT] + Join(labels)
  {
    assert ([""] + labels)[1..] == labels;
  }

  lemma JoinLongerHead(c: char, labels: seq<string>)
    requires labels != []
    ensures Join([[c] + labels[0]] + labels[1..]) == [c] + Join(labels)
  {
    assert ([[c] + labels[0]] + labels[1..])[1..] == labels[1..];
    if |labels| > 1 {
      var tail := [DOT] + Join(labels[1..]);
      assert ([c] + labels[0]) + tail == [c] + (labels[0] + tail);
    }
  }

  lemma {:induction false} JoinSplit(s: string)
    ensures Join(Split(s)) == s
    ensures forall l | l in Split(s) :: DOT !in l
  {
    if s == "" { return; }
    JoinSplit(s[1..]);
    var rest := Split(s[1..]);
    if s[0] == DOT { JoinEmptyHead(rest); } else { JoinLongerHead(s[0], rest); }
  }

  lemma SplitHead(head: string, tail: string)
    requires DOT !in head
    ensures Split(head + [DOT] + tail) == [head] + Split(tail)
    decreases |head|
  {
    var s := head + [DOT] + tail;
    if head == "" {
      assert s[1..] == tail;
    } else {
      assert s[1..] == head[1..] + [DOT] + tail;
      SplitHead(head[1..], tail);
      assert head == [head[0]] + head[1..];
      assert ([head[1..]] + Split(tail))[1..] == Split(tail);
    }
  }

  lemma {:induction false} SplitOne(s: string)
    requires DOT !in s
    ensures Split(s) == [s]
  {
    if s == "" {
    } else {
      SplitOne(s[1..]);
      assert s == [s[0]] + s[1..];
    }
  }

  lemma {:induction false} SplitJoin(labels: seq<string>)
    requires labels != [] && forall l | l in labels :: DOT !in l
    ensures Split(Join(labels)) == labels
  {
    if |labels| == 1 {
      SplitOne(labels[0]);
    } else {
      SplitJoin(labels[1..]);
      SplitHead(labels[0], Join(labels[1..]));
    }
  }

  /** What the two loops check. */
  ghost predicate Accepted(s: string, underscore: bool) {
    && 1 <= |TrimDot(s)| <= 253
    && forall l | l in Split(TrimDot(s)) :: IsLabel(l, underscore)
  }

  method ValidDnsName(name: string, underscore: bool) returns (ok: bool)
    ensures ok <==> Accepted(name, underscore)
  {
    if name == "" { return false; }
    var s := TrimDot(name);
    if |s| == 0 || |s| > 253 { return false; }
    var labels := Split(s);
    for k := 0 to |labels|
      invariant forall j | 0 <= j < k :: IsLabel(labels[j], underscore)
    {
      var lbl := labels[k];
      if |lbl| == 0 || |lbl| > 63 {
        assert lbl in labels;
        return false;
      }
      for i := 0 to |lbl|
        invariant forall j | 0 <= j < i ::
                    AlphaNumeric(lbl[j]) || (underscore && lbl[j] == '_')
                    || (lbl[j] == '-' && j != 0 && j != |lbl| - 1)
      {
        var c := lbl[i];
        if AlphaNumeric(c) || (c == '_' && underscore) {
        } else if c == '-' {
          if i == 0 || i == |lbl| - 1 {
            assert lbl in labels && !IsLabel(lbl, underscore);
            return false;
          }
        } else {
          assert lbl in labels && !IsLabel(lbl, underscore);
          return false;
        }
      }
    }
    return true;
  }

  lemma LabelHasNoDot(lbl: string, underscore: bool)
    requires IsLabel(lbl, underscore)
    ensures DOT !in lbl
  {}

  lemma {:induction false} JoinEndsInLabel(labels: seq<string>, underscore: bool)
    requires labels != [] && forall l | l in labels :: IsLabel(l, underscore)
    ensures Join(labels) != "" && Join(labels)[|Join(labels)| - 1] != DOT
  {
    LabelHasNoDot(labels[0], underscore);
    if |labels| > 1 { JoinEndsInLabel(labels[1..], underscore); }
  }

  /** The loops accept exactly the grammar. */
  lemma AcceptsExactlyNames(s: string, underscore: bool)
    ensures Accepted(s, underscore) <==> IsName(s, underscore)
  {
    var t := TrimDot(s);
    if Accepted(s, underscore) {
      JoinSplit(t);
      var labels := Split(t);
      assert Join(labels) == t && (s == t || s == t + [DOT]);
    }
    if IsName(s, underscore) {
      var labels: seq<string> :| labels != [] && (forall l | l in labels :: IsLabel(l, underscore))
        && |Join(labels)| <= 253 && (s == Join(labels) || s == Join(labels) + [DOT]);
      JoinEndsInLabel(labels, underscore);
      forall l | l in labels ensures DOT !in l { LabelHasNoDot(l, underscore); }
      SplitJoin(labels);
      assert t == Join(labels);
    }
  }

  // ---- the wire ----

  function Fqdn(name: string): string { if name != "" && name[|name| - 1] == DOT then name else name + [DOT] }

  /** Each label preceded by its length, and a zero octet at the end. */
  function Encode(labels: seq<string>): seq<nat> {
    if labels == [] then [0] else [|labels[0]|] + Octets(labels[0]) + Encode(labels[1..])
  }

  function Octets(s: string): (r: seq<nat>)
    ensures |r| == |s| && forall i | 0 <= i < |s| :: r[i] == s[i] as nat
  {
    if s == "" then [] else [s[0] as nat] + Octets(s[1..])
  }

  /** Reads labels up to the zero octet; None if the octets end too early or a length is over 63. */
  function Decode(wire: seq<nat>): (r: (bool, seq<seq<nat>>)) {
    if wire == [] then (false, [])
    else if wire[0] == 0 then (true, [])
    else if wire[0] > 63 || wire[0] >= |wire| then (false, [])
    else
      var rest := Decode(wire[wire[0] + 1..]);
      (rest.0, [wire[1..wire[0] + 1]] + rest.1)
  }

  function AllOctets(labels: seq<string>): seq<seq<nat>> {
    if labels == [] then [] else [Octets(labels[0])] + AllOctets(labels[1..])
  }

  lemma {:induction false} DecodeEncode(labels: seq<string>)
    requires forall l | l in labels :: 1 <= |l| <= 63
    ensures Decode(Encode(labels)) == (true, AllOctets(labels))
  {
    if labels == [] { return; }
    assert labels[0] in labels;
    DecodeEncode(labels[1..]);
    var wire, n := Encode(labels), |labels[0]|;
    assert wire[0] == n;
    assert wire[1..n + 1] == Octets(labels[0]);
    assert wire[n + 1..] == Encode(labels[1..]);
  }

  lemma {:induction false} EncodedLength(labels: seq<string>)
    requires labels != []
    ensures |Encode(labels)| == |Join(labels)| + 2
  {
    if |labels| == 1 {
      assert Encode(labels[1..]) == [0];
    } else {
      EncodedLength(labels[1..]);
    }
  }

  lemma {:induction false} EncodeAppend(a: seq<string>, b: seq<string>)
    ensures |Encode(a)| >= 1 && Encode(a + b) == Encode(a)[..|Encode(a)| - 1] + Encode(b)
  {
    if a == [] {
      assert a + b == b;
    } else {
      EncodeAppend(a[1..], b);
      assert (a + b)[1..] == a[1..] + b;
      var head, tail := [|a[0]|] + Octets(a[0]), Encode(a[1..]);
      assert (head + tail)[..|head| + |tail| - 1] == head + tail[..|tail| - 1];
    }
  }

  lemma HeadInFull(lbl: string, after: seq<string>)
    ensures var wire := Encode([lbl] + after);
      && |lbl| + 1 < |wire| && wire[0] == |lbl| && wire[|wire| - 1] == 0
      && forall i | 0 <= i < |lbl| :: wire[1 + i] == lbl[i] as nat
  {
    assert ([lbl] + after)[1..] == after;
    LastIsZero(after);
  }

  /** On the wire every label follows the ones before it: its length, then its characters; a zero octet ends it. */
  lemma WireInFull(before: seq<string>, lbl: string, after: seq<string>)
    ensures var wire, k := Encode(before + ([lbl] + after)), |Encode(before)| - 1;
      && 0 <= k && k + |lbl| + 1 < |wire| && wire[k] == |lbl| && wire[|wire| - 1] == 0
      && forall i | 0 <= i < |lbl| :: wire[k + 1 + i] == lbl[i] as nat
  {
    EncodeAppend(before, [lbl] + after);
    HeadInFull(lbl, after);
    var k, tail := |Encode(before)| - 1, Encode([lbl] + after);
    forall j | 0 <= j < |tail| ensures Encode(before + ([lbl] + after))[k + j] == tail[j] {}
    forall i | 0 <= i < |lbl| ensures Encode(before + ([lbl] + after))[k + 1 + i] == lbl[i] as nat {
      assert tail[1 + i] == lbl[i] as nat;
    }
  }

  lemma {:induction false} LastIsZero(labels: seq<string>)
    ensures |Encode(labels)| >= 1 && Encode(labels)[|Encode(labels)| - 1] == 0
  {
    if labels != [] { LastIsZero(labels[1..]); }
  }

  lemma OctetsInjective(a: string, b: string)
    requires Octets(a) == Octets(b)
    ensures a == b
  {
    assert |a| == |b|;
    forall i | 0 <= i < |a| ensures a[i] == b[i] { assert Octets(a)[i] == Octets(b)[i]; }
  }

  lemma {:induction false} AllOctetsInjective(a: seq<string>, b: seq<string>)
    requires AllOctets(a) == AllOctets(b)
    ensures a == b
  {
    if a == [] || b == [] { return; }
    var x, y := AllOctets(a), AllOctets(b);
    assert x[0] == y[0] && x[1..] == y[1..];
    assert x[1..] == AllOctets(a[1..]) && y[1..] == AllOctets(b[1..]);
    OctetsInjective(a[0], b[0]);
    AllOctetsInjective(a[1..], b[1..]);
    assert a == [a[0]] + a[1..] && b == [b[0]] + b[1..];
  }

  /** Different label sequences have different wire forms. */
  lemma WireDeterminesLabels(a: seq<string>, b: seq<string>)
    requires (forall l | l in a :: 1 <= |l| <= 63) && (forall l | l in b :: 1 <= |l| <= 63)
    requires Encode(a) == Encode(b)
    ensures a == b
  {
    DecodeEncode(a);
    DecodeEncode(b);
    AllOctetsInjective(a, b);
  }

  lemma LabelsFit(labels: seq<string>, underscore: bool)
    requires labels != [] && forall l | l in labels :: IsLabel(l, underscore)
    ensures |Encode(labels)| == |Join(labels)| + 2 && Decode(Encode(labels)) == (true, AllOctets(labels))
  {
    EncodedLength(labels);
    forall l | l in labels ensures 1 <= |l| <= 63 { assert IsLabel(l, underscore); }
    DecodeEncode(labels);
  }

  /** Every accepted name, made absolute, is its trimmed form and one dot; on the wire it takes at most 255
      octets and decodes to its own labels. */
  lemma AcceptedNamesFitTheWire(name: string, underscore: bool)
    requires Accepted(name, underscore)
    ensures Fqdn(name) == TrimDot(name) + [DOT]
    ensures var labels := Split(TrimDot(name));
      && Join(labels) + [DOT] == Fqdn(name)
      && |Encode(labels)| == |Fqdn(name)| + 1 <= 255
      && Decode(Encode(labels)) == (true, AllOctets(labels))
  {
    var t := TrimDot(name);
    JoinSplit(t);
    LabelsFit(Split(t), underscore);
  }
}
