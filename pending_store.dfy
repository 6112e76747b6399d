/** The layout of the pending-SMS entries inside `simcash_prefs`, shared by
    `BackgroundService` (which writes them) and `NativeSmsModule` (which
    drains them): key `"pending_sms_" + millis`, value `"sender|body"`. */
module PendingStore {
  import opened Common
  import Decimal

  const PrefsName: string := "simcash_prefs"
  const PendingPrefix: string := "pending_sms_"
  const Separator: char := '|'

  /** The key `savePendingSms` writes at clock reading `now` (milliseconds). */
  function PendingKey(now: nat): (k: string)
    ensures HasPrefix(k, PendingPrefix)
  {
    PrefixOfConcat(PendingPrefix, Decimal.ToDecimal(now));
    PendingPrefix + Decimal.ToDecimal(now)
  }

  /** Two saves share a key exactly when they read the same millisecond. */
  lemma PendingKeyInjective(a: nat, b: nat)
    ensures PendingKey(a) == PendingKey(b) <==> a == b
  {
    if PendingKey(a) == PendingKey(b) {
      assert PendingKey(a)[|PendingPrefix|..] == Decimal.ToDecimal(a);
      assert PendingKey(b)[|PendingPrefix|..] == Decimal.ToDecimal(b);
      Decimal.ToDecimalInjective(a, b);
    }
  }

  /** `"$sender|$body"`. */
  function Encode(sender: string, body: string): (v: string)
    ensures |v| == |sender| + 1 + |body|
    ensures v[..|sender|] == sender && v[|sender|] == Separator && v[|sender| + 1..] == body
  {
    sender + [Separator] + body
  }

  /** The position of the first `c` in `s`, or -1. */
  function FirstIndexOf(s: string, c: char): (i: int)
    ensures -1 <= i < |s|
    ensures i == -1 <==> c !in s
    ensures i >= 0 ==> s[i] == c && c !in s[..i]
  {
    if s == [] then -1
    else if s[0] == c then 0
    else
      var j := FirstIndexOf(s[1..], c);
      if j == -1 then -1
      else
        assert s[..j + 1] == [s[0]] + s[1..][..j];
        j + 1
  }

  /** `v.split("|", limit = 2)` read back with `getOrNull(0) ?: ""` and
      `getOrNull(1) ?: ""`: the text before the first `|` is the sender and
      all the rest, further `|` included, is the body; a value without `|`
      is all sender with an empty body. */
  function Decode(v: string): (r: (string, string))
    ensures Separator !in v ==> r == (v, "")
    ensures Separator in v ==> Separator !in r.0 && v == Encode(r.0, r.1)
  {
    var i := FirstIndexOf(v, Separator);
    if i == -1 then (v, "")
    else
      assert v == v[..i] + [Separator] + v[i + 1..];
      (v[..i], v[i + 1..])
  }

  /** A stored pair reads back as written when the sender has no `|`, even
      if the body has some. */
  lemma DecodeEncode(sender: string, body: string)
    requires Separator !in sender
    ensures Decode(Encode(sender, body)) == (sender, body)
  {
    var v := Encode(sender, body);
    assert v[|sender|] == Separator;
    assert Separator in v;
    var (s, b) := Decode(v);
    var i := FirstIndexOf(v, Separator);
    assert v[..|sender|] == sender;
    assert i == |sender|;
    assert v[i + 1..] == body;
  }

  /** A sender with a `|` does not survive: the drain splits it. */
  lemma DecodeSplitsBarredSender()
    ensures Decode(Encode("a|b", "c")) == ("a", "b|c")
  {
    var v := Encode("a|b", "c");
    assert v == "a|b|c";
    assert v[1..][0] == Separator;
    assert FirstIndexOf(v, Separator) == 1;
    assert v[..1] == "a" && v[2..] == "b|c";
  }

  /** `filterKeys { it.startsWith("pending_sms_") }`. */
  function PendingEntries(m: map<string, string>): (p: map<string, string>)
    ensures forall k :: k in p <==> k in m && HasPrefix(k, PendingPrefix)
    ensures forall k :: k in p ==> p[k] == m[k]
  {
    map k | k in m && HasPrefix(k, PendingPrefix) :: m[k]
  }

  /** What a drain leaves: every entry without the prefix, untouched. */
  function OtherEntries(m: map<string, string>): (o: map<string, string>)
    ensures forall k :: k in o <==> k in m && !HasPrefix(k, PendingPrefix)
    ensures forall k :: k in o ==> o[k] == m[k]
  {
    m - PendingEntries(m).Keys
  }

  /** The drained batch and what is left make up the whole store. */
  lemma DrainPartitions(m: map<string, string>)
    ensures PendingEntries(m).Keys !! OtherEntries(m).Keys
    ensures PendingEntries(m) + OtherEntries(m) == m
  {
    assert (PendingEntries(m) + OtherEntries(m)).Keys == m.Keys;
  }

  /** Nothing pending is left after a drain, so a second drain finds nothing. */
  lemma DrainLeavesNothingPending(m: map<string, string>)
    ensures PendingEntries(OtherEntries(m)) == map[]
    ensures OtherEntries(OtherEntries(m)) == OtherEntries(m)
  {
    assert PendingEntries(OtherEntries(m)).Keys == {};
  }

  /** A save adds its entry to the pending batch and nothing else. */
  lemma SaveIsPending(m: map<string, string>, now: nat, v: string)
    ensures PendingEntries(m[PendingKey(now) := v]) == PendingEntries(m)[PendingKey(now) := v]
    ensures OtherEntries(m[PendingKey(now) := v]) == OtherEntries(m)
  {
    var m' := m[PendingKey(now) := v];
    assert PendingEntries(m').Keys == PendingEntries(m).Keys + {PendingKey(now)};
    assert OtherEntries(m').Keys == OtherEntries(m).Keys;
  }
}
