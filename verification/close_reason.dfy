/** `_truncate_close_reason` of `supervisor.py`: what fits in a close frame (section 5.5 of RFC 6455). */
module CloseReasons {
  import opened Utf8

  const MAX_CLOSE_REASON_BYTES := 123

  function Truncate(reason: Text): Text {
    var encoded := Encode(reason);
    if |encoded| <= MAX_CLOSE_REASON_BYTES then reason else DecodeIgnoring(encoded[..MAX_CLOSE_REASON_BYTES])
  }

  /** The number of leading code points whose encodings fit in `room` bytes. */
  function Fitting(reason: Text, room: nat): (k: nat)
    ensures k <= |reason|
  {
    if reason == [] || |EncodeScalar(reason[0])| > room then 0
    else 1 + Fitting(reason[1..], room - |EncodeScalar(reason[0])|)
  }

  /** Ignoring the errors of an encoding cut after `room` bytes leaves the code points that fit. */
  lemma {:induction false} CutEncoding(reason: Text, room: nat)
    requires room <= |Encode(reason)|
    ensures DecodeIgnoring(Encode(reason)[..room]) == reason[..Fitting(reason, room)]
  {
    hide EncodeScalar, Complete, First, Valid, Length;
    if reason == [] || room == 0 {
    } else {
      var head, rest := EncodeScalar(reason[0]), Encode(reason[1..]);
      if |head| <= room {
        CutEncoding(reason[1..], room - |head|);
        assert Encode(reason)[..room] == head + rest[..room - |head|];
        EncodedScalar(reason[0], rest[..room - |head|]);
        assert reason[..Fitting(reason, room)] == [reason[0]] + reason[1..][..Fitting(reason[1..], room - |head|)];
      } else {
        assert Encode(reason)[..room] == head[..room];
        CutScalar(reason[0], room);
      }
    }
  }

  lemma {:induction false} EncodePrefix(reason: Text, k: nat)
    requires k <= |reason|
    ensures Encode(reason) == Encode(reason[..k]) + Encode(reason[k..])
  {
    hide EncodeScalar;
    if k == 0 {
      assert reason[..0] == [] && reason[0..] == reason;
    } else {
      EncodePrefix(reason[1..], k - 1);
      SlicesOfRest(reason, k);
      EncodeFirst(reason);
      EncodeFirst(reason[..k]);
      hide Encode;
      AppendAssociates(EncodeScalar(reason[0]), Encode(reason[..k][1..]), Encode(reason[k..]));
    }
  }

  lemma SlicesOfRest(reason: Text, k: nat)
    requires 0 < k <= |reason|
    ensures reason[1..][..k - 1] == reason[..k][1..] && reason[1..][k - 1..] == reason[k..] && reason[..k][0] == reason[0]
  {
  }

  lemma EncodeFirst(reason: Text)
    requires reason != []
    ensures Encode(reason) == EncodeScalar(reason[0]) + Encode(reason[1..])
  {
    hide EncodeScalar;
  }

  lemma AppendAssociates(a: Bytes, b: Bytes, c: Bytes)
    ensures a + (b + c) == (a + b) + c
  {
  }

  lemma {:induction false} FittingIsLongest(reason: Text, room: nat)
    ensures
      var k := Fitting(reason, room);
      && |Encode(reason[..k])| <= room
      && (k < |reason| ==> |Encode(reason[..k + 1])| > room)
  {
    hide EncodeScalar;
    var k := Fitting(reason, room);
    if reason != [] && |EncodeScalar(reason[0])| <= room {
      FittingIsLongest(reason[1..], room - |EncodeScalar(reason[0])|);
      assert reason[..k][1..] == reason[1..][..k - 1];
      if k < |reason| {
        assert reason[..k + 1][1..] == reason[1..][..k];
      }
    } else if reason != [] {
      assert reason[..1] == [reason[0]];
      assert Encode(reason[..1]) == EncodeScalar(reason[0]) + Encode([]);
    }
  }

  /** The truncated reason is the longest prefix of whole code points that fits in 123 bytes. */
  lemma TruncateIsLongestPrefix(reason: Text)
    ensures
      exists k: nat :: k <= |reason| && Truncate(reason) == reason[..k]
        && |Encode(reason[..k])| <= 123
        && (forall j: nat :: k < j <= |reason| ==> |Encode(reason[..j])| > 123)
  {
    var k := if |Encode(reason)| <= MAX_CLOSE_REASON_BYTES then |reason| else Fitting(reason, MAX_CLOSE_REASON_BYTES);
    assert reason[..|reason|] == reason;
    if |Encode(reason)| > MAX_CLOSE_REASON_BYTES {
      CutEncoding(reason, MAX_CLOSE_REASON_BYTES);
      FittingIsLongest(reason, MAX_CLOSE_REASON_BYTES);
    }
    forall j: nat | k < j <= |reason| ensures |Encode(reason[..j])| > 123 {
      EncodePrefix(reason[..j], k + 1);
      assert reason[..j][..k + 1] == reason[..k + 1];
    }
    assert Truncate(reason) == reason[..k];
  }
}
