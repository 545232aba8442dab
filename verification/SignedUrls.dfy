/** Signed local URLs: what is signed, what is accepted, and until when. `mac` stands for HMAC-SHA-256. */
module SignedUrls {
  import opened Options
  import opened Encodings

  type Mac = string -> seq<Byte>

  datatype Verdict = Accepted | InvalidSignature | ExpiredSignature

  function Message(action: string, transferId: string, expires: int): string {
    action + "\n" + transferId + "\n" + PrintInt(expires)
  }

  function Signature(mac: Mac, action: string, transferId: string, expires: int): string {
    EncodeHex(mac(Message(action, transferId, expires)))
  }

  function Verify(mac: Mac, now: int, action: string, transferId: string, expires: string, signature: string): Verdict {
    var unix := ParseInt64(expires);
    if unix.None? then InvalidSignature
    else if now > unix.value then ExpiredSignature
    else
      var provided := DecodeHex(signature);
      if provided == Some(mac(Message(action, transferId, unix.value))) then Accepted else InvalidSignature
  }

  /**
   A request is accepted exactly with the issued signature for what it asks, letter case aside, until the
   expiry it names.
   */
  lemma VerifyExact(mac: Mac, now: int, action: string, transferId: string, expires: string, signature: string)
    ensures Verify(mac, now, action, transferId, expires, signature).Accepted?
            <==> && ParseInt64(expires).Some? && now <= ParseInt64(expires).value
                 && Lower(signature) == Signature(mac, action, transferId, ParseInt64(expires).value)
                 && var text := action + "\n" + transferId + "\n" + PrintInt(ParseInt64(expires).value);
                    Lower(signature) == EncodeHex(mac(text))
  {
    if ParseInt64(expires).Some? {
      DecodeHexIff(signature, mac(Message(action, transferId, ParseInt64(expires).value)));
    }
  }

  lemma PrintHasNoBreak(n: int)
    ensures '\n' !in PrintInt(n)
  {
    assert !IsDigit('\n');
  }

  lemma PrintInjective(m: int, n: int)
    requires PrintInt(m) == PrintInt(n)
    ensures m == n
  {
    if m < 0 {
      assert IsDigit(PrintNat(if n < 0 then -n else n)[0]);
      PrintNatValue(-m);
      PrintNatValue(if n < 0 then -n else n);
      assert PrintInt(m)[1..] == PrintNat(-m);
      assert n < 0 && PrintInt(n)[1..] == PrintNat(-n);
    } else {
      assert IsDigit(PrintNat(m)[0]);
      PrintNatValue(m);
      PrintNatValue(if n < 0 then -n else n);
    }
  }

  /** The signed message names its action, transfer and expiry uniquely, whatever the transfer id contains. */
  lemma MessageUnique(action: string, id: string, expires: int, action': string, id': string, expires': int)
    requires '\n' !in action && '\n' !in action'
    requires Message(action, id, expires) == Message(action', id', expires')
    ensures action == action' && id == id' && expires == expires'
  {
    PrintHasNoBreak(expires);
    PrintHasNoBreak(expires');
    var tail, tail' := id + "\n" + PrintInt(expires), id' + "\n" + PrintInt(expires');
    assert Message(action, id, expires) == action + "\n" + tail;
    assert Message(action', id', expires') == action' + "\n" + tail';
    FirstSeparator(action, tail, action', tail', '\n');
    LastSeparator(id, PrintInt(expires), id', PrintInt(expires'), '\n');
    PrintInjective(expires, expires');
  }

  /** An issued URL is accepted up to and including its expiry second, and expired after it. */
  lemma IssuedUntilExpiry(mac: Mac, now: int, action: string, transferId: string, expires: int)
    requires MIN_INT64 <= expires <= MAX_INT64
    ensures Verify(mac, now, action, transferId, PrintInt(expires), Signature(mac, action, transferId, expires))
            == if now <= expires then Accepted else ExpiredSignature
  {
    ParsePrint(expires);
    DecodeEncodeHex(mac(Message(action, transferId, expires)));
  }

  /** With an injective MAC an issued signature opens no other action, transfer or expiry. */
  lemma NoOtherUse(mac: Mac, now: int, action: string, id: string, expires: int,
                   action': string, id': string, expires': string)
    requires forall m, n :: mac(m) == mac(n) ==> m == n
    requires '\n' !in action && '\n' !in action'
    requires Verify(mac, now, action', id', expires', Signature(mac, action, id, expires)).Accepted?
    ensures action' == action && id' == id && ParseInt64(expires') == Some(expires) && now <= expires
  {
    DecodeEncodeHex(mac(Message(action, id, expires)));
    MessageUnique(action, id, expires, action', id', ParseInt64(expires').value);
  }

  /** An action with a line break would not be told apart from an id with one. */
  lemma BreakInActionCollides(expires: int)
    ensures Message("a\nb", "c", expires) == Message("a", "b\nc", expires)
  {
    assert "a\nb" + "\n" + "c" == "a" + "\n" + "b\nc";
  }

  /** Another action and id that are signed alike. */
  ghost predicate SignedAlike(action: string, id: string, expires: int, action': string, id': string, expires': int) {
    Message(action, id, expires) == Message(action', id', expires') && !(action' == action && id' == id
        && expires' == expires)
  }

  lemma SameJoin(action: string, id: string, expires: int, action': string, id': string, expires': int)
    ensures Message(action, id, expires) == Message(action', id', expires')
            <==> action + "\n" + id == action' + "\n" + id' && expires == expires'
  {
    PrintHasNoBreak(expires);
    PrintHasNoBreak(expires');
    if Message(action, id, expires) == Message(action', id', expires') {
      LastSeparator(action + "\n" + id, PrintInt(expires), action' + "\n" + id', PrintInt(expires'), '\n');
      PrintInjective(expires, expires');
    }
  }

  /**
   If actions were free, exactly those messages would have a second reading whose action or id contains a line
   break.
   */
  lemma SignedAlikeIffBreak(action: string, id: string, expires: int)
    ensures (exists action', id', expires' :: SignedAlike(action, id, expires, action', id', expires'))
            <==> '\n' in action || '\n' in id
  {
    if '\n' in action {
      var k :| 0 <= k < |action| && action[k] == '\n';
      SecondReading(action, id, expires, k);
    } else if '\n' in id {
      var k :| 0 <= k < |id| && id[k] == '\n';
      var joined := action + "\n" + id;
      assert joined[|action| + 1 + k] == '\n';
      SecondReading(action, id, expires, |action| + 1 + k);
    } else {
      forall action', id', expires' ensures !SignedAlike(action, id, expires, action', id', expires') {
        SameJoin(action, id, expires, action', id', expires');
        if action + "\n" + id == action' + "\n" + id' {
          OneBreak(action, id, action', id');
        }
      }
    }
  }

  lemma SecondReading(action: string, id: string, expires: int, k: nat)
    requires k < |action + "\n" + id| && (action + "\n" + id)[k] == '\n' && k != |action|
    ensures exists action', id', expires' :: SignedAlike(action, id, expires, action', id', expires')
  {
    var joined := action + "\n" + id;
    assert joined == joined[..k] + "\n" + joined[k + 1..];
    SameJoin(action, id, expires, joined[..k], joined[k + 1..], expires);
    assert |joined[..k]| != |action|;
    assert SignedAlike(action, id, expires, joined[..k], joined[k + 1..], expires);
  }

  lemma OneBreak(action: string, id: string, action': string, id': string)
    requires '\n' !in action && '\n' !in id && action + "\n" + id == action' + "\n" + id'
    ensures action == action' && id == id'
  {
    var joined := action + "\n" + id;
    assert joined[|action'|] == '\n';
    assert forall i :: 0 <= i < |joined| && i != |action| ==>
        joined[i] == if i < |action| then action[i] else id[i - |action| - 1];
    assert |action'| == |action|;
    assert action == joined[..|action|] && action' == joined[..|action|];
    assert id == joined[|action| + 1..] && id' == joined[|action| + 1..];
  }
}
