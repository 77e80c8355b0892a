/** types/channel.go: the text that is hashed into a channel id. */
module ChannelIds {
  import opened Types

  /** Go's order on strings. */
  predicate Less(a: string, b: string) {
    b != "" && (a == "" || a[0] < b[0] || (a[0] == b[0] && Less(a[1..], b[1..])))
  }

  function DirectKey(a: string, b: string): string {
    if Less(a, b) then a + "_" + b else b + "_" + a
  }

  function CalcChannelId(a: string, b: string): ChannelId { Md5(DirectKey(a, b)) }

  function CalcRoomChannelId(roomId: string): ChannelId { Md5(roomId) }

  /** service/message.go, getChannelId. */
  function GetChannelId(fromId: string, toId: string, roomId: string): ChannelId {
    if roomId != "" then CalcRoomChannelId(roomId) else CalcChannelId(fromId, toId)
  }

  lemma {:induction false} LessIsTotal(a: string, b: string)
    ensures a == b ==> !Less(a, b)
    ensures a != b ==> (Less(a, b) <==> !Less(b, a))
  {
    if a != "" && b != "" && a[0] == b[0] {
      LessIsTotal(a[1..], b[1..]);
      assert a == [a[0]] + a[1..] && b == [b[0]] + b[1..];
    }
  }

  /** After k common characters, a ends before b does or has the smaller character. */
  predicate Parts(a: string, b: string, k: nat) {
    k <= |a| && k < |b| && a[..k] == b[..k] && (k == |a| || a[k] < b[k])
  }

  lemma {:induction false} PartsBelow(a: string, b: string, k: nat)
    requires Parts(a, b, k)
    ensures Less(a, b)
  {
    if k > 0 {
      assert a[0] == a[..k][0] == b[..k][0] == b[0];
      assert a[1..][..k - 1] == a[..k][1..] && b[1..][..k - 1] == b[..k][1..];
      PartsBelow(a[1..], b[1..], k - 1);
    }
  }

  lemma {:induction false} LessParts(a: string, b: string) returns (k: nat)
    requires Less(a, b)
    ensures Parts(a, b, k)
  {
    k := 0;
    if a != "" && a[0] == b[0] {
      var n := LessParts(a[1..], b[1..]);
      k := n + 1;
      assert a[..k] == [a[0]] + a[1..][..n] && b[..k] == [b[0]] + b[1..][..n];
    }
  }

  /** The order is that of the dictionary: a comes before b exactly when they part at some place in its favour. */
  lemma {:induction false} LessIffParts(a: string, b: string)
    ensures Less(a, b) <==> exists k: nat :: Parts(a, b, k)
  {
    if Less(a, b) {
      var k := LessParts(a, b);
    }
    forall k: nat | Parts(a, b, k) ensures Less(a, b) {
      PartsBelow(a, b, k);
    }
  }

  /** The text that is hashed starts with the user who comes first in the dictionary. */
  lemma {:induction false} SmallerFirst(a: string, b: string)
    ensures CalcChannelId(a, b) == Md5(if exists k: nat :: Parts(a, b, k) then a + "_" + b else b + "_" + a)
    ensures CalcChannelId("alice", "bob") == CalcChannelId("bob", "alice") == Md5("alice_bob")
  {
    LessIffParts(a, b);
    assert Parts("alice", "bob", 0);
    LessIffParts("alice", "bob");
    Symmetric("alice", "bob");
  }

  /** Both users of a direct conversation get the same channel id. */
  lemma Symmetric(a: string, b: string)
    ensures CalcChannelId(a, b) == CalcChannelId(b, a)
  {
    LessIsTotal(a, b);
  }

  predicate SamePair(a: string, b: string, c: string, d: string) {
    (a == c && b == d) || (a == d && b == c)
  }

  function FirstUnderscore(s: string): nat {
    if s == "" || s[0] == '_' then 0 else 1 + FirstUnderscore(s[1..])
  }

  lemma {:induction false} UnderscoreAfter(a: string, b: string)
    requires '_' !in a
    ensures FirstUnderscore(a + "_" + b) == |a|
  {
    if a != "" {
      UnderscoreAfter(a[1..], b);
      assert (a + "_" + b)[1..] == a[1..] + "_" + b;
    }
  }

  lemma JoinSplits(a: string, b: string, c: string, d: string)
    requires |a| == |c| || ('_' !in a && '_' !in c)
    requires a + "_" + b == c + "_" + d
    ensures a == c && b == d
  {
    if |a| != |c| {
      UnderscoreAfter(a, b);
      UnderscoreAfter(c, d);
    }
    var x, y := a + "_" + b, c + "_" + d;
    assert x[..|a|] == a && y[..|c|] == c;
    assert x[|a| + 1..] == b && y[|c| + 1..] == d;
  }

  /** Ids of one length, or ids without an underscore: a uuid is both. */
  predicate Ids(a: string, b: string, c: string, d: string) {
    || |a| == |b| == |c| == |d|
    || ('_' !in a && '_' !in b && '_' !in c && '_' !in d)
  }

  /** Two direct conversations hash the same text exactly when they join the same two users. */
  lemma DirectKeyIdentifiesPair(a: string, b: string, c: string, d: string)
    requires Ids(a, b, c, d)
    ensures DirectKey(a, b) == DirectKey(c, d) <==> SamePair(a, b, c, d)
  {
    LessIsTotal(a, b);
    if DirectKey(a, b) == DirectKey(c, d) {
      var (p, q) := if Less(a, b) then (a, b) else (b, a);
      var (r, s) := if Less(c, d) then (c, d) else (d, c);
      JoinSplits(p, q, r, s);
    }
  }

  /** No direct conversation hashes the text of a room. */
  lemma {:induction false} DirectKeyIsNoRoom(a: string, b: string, roomId: string)
    requires |roomId| == |a| == |b| || '_' !in roomId
    ensures DirectKey(a, b) != roomId
  {
    assert '_' in a + "_" + b by { assert (a + "_" + b)[|a|] == '_'; }
    assert '_' in b + "_" + a by { assert (b + "_" + a)[|b|] == '_'; }
  }
}
