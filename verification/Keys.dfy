/** The Redis key strings of the ingest engine, and when two of them can coincide. */
module Keys {

  datatype Option<+T> = None | Some(value: T)

  predicate ColonFree(s: string) {
    ':' !in s
  }

  function IdemKey(org: string, event: string): string {
    "idem:" + PairKey(org, event)
  }

  /** The `org_id:end_user_id` (and `org_id:event_id`) concatenation. */
  function PairKey(org: string, id: string): string {
    org + ":" + id
  }

  function OrgKey(org: string): string {
    "org:" + org
  }

  function EndUserKey(org: string, endUser: string): string {
    "org:" + org + ":enduser:" + endUser
  }

  function BloomKey(org: string, shard: nat): string {
    "bf:" + org + ":" + Decimal(shard)
  }

  function Decimal(n: nat): string {
    var digit := ['0' + (n % 10) as char];
    if n < 10 then digit else Decimal(n / 10) + digit
  }

  /** How Postgres reads text as a UUID: the stored spelling, or None for a text that is no UUID. */
  type UuidReader = string -> Option<string>

  /** No UUID contains a colon, and stored spellings are read as themselves. */
  ghost predicate ReadsUuids(uuid: UuidReader) {
    forall id :: uuid(id).Some? ==> ColonFree(id) && uuid(uuid(id).value) == uuid(id)
  }

  /** The keys as the engine, the daemon and the control plane all spell them. */
  lemma KeyTexts(org: string, id: string, shard: nat)
    ensures IdemKey(org, id) == "idem:" + org + ":" + id
    ensures OrgKey(org) == "org:" + org
    ensures EndUserKey(org, id) == "org:" + org + ":enduser:" + id
    ensures BloomKey(org, shard) == "bf:" + org + ":" + Decimal(shard)
  {
    assert "idem:" + (org + ":" + id) == "idem:" + org + ":" + id;
  }

  /** `longer` is `shorter` followed by a colon and more text. */
  predicate ColonExtends(shorter: string, longer: string) {
    shorter + ":" <= longer
  }

  /** No id of the set is another one followed by a colon. */
  ghost predicate NoColonExtension(orgs: set<string>) {
    forall o, o' :: o in orgs && o' in orgs ==> !ColonExtends(o, o')
  }

  /** Two joined pairs coincide only if they are the same pair or one left part extends the other. */
  lemma PairKeyCollision(o: string, e: string, o': string, e': string)
    requires PairKey(o, e) == PairKey(o', e')
    ensures (o == o' && e == e') || ColonExtends(o, o') || ColonExtends(o', o)
  {
    var k := PairKey(o, e);
    assert k[..|o|] == o && k[|o|] == ':' && k[|o| + 1..] == e;
    assert k[..|o'|] == o' && k[|o'|] == ':' && k[|o'| + 1..] == e';
    if |o| < |o'| {
      assert o'[..|o| + 1] == o + ":";
    } else if |o'| < |o| {
      assert o[..|o'| + 1] == o' + ":";
    }
  }

  lemma IdemKeyCollision(o: string, e: string, o': string, e': string)
    requires IdemKey(o, e) == IdemKey(o', e')
    ensures (o == o' && e == e') || ColonExtends(o, o') || ColonExtends(o', o)
  {
    assert IdemKey(o, e)[5..] == PairKey(o, e) && IdemKey(o', e')[5..] == PairKey(o', e');
    PairKeyCollision(o, e, o', e');
  }

  /** Conversely, an extended org id always collides with the id it extends. */
  lemma ExtensionCollides(o: string, o': string, e': string)
    requires ColonExtends(o, o')
    ensures PairKey(o, o'[|o| + 1..] + ":" + e') == PairKey(o', e')
  {
    assert o' == o + ":" + o'[|o| + 1..];
  }

  lemma ColonFreeNeverExtended(o: string, o': string)
    requires ColonFree(o')
    ensures !ColonExtends(o, o')
  {
    assert (o + ":")[|o|] == ':';
    assert forall i :: 0 <= i < |o'| ==> o'[i] != ':';
  }

  /** An end-user key is never the existence key of a colon-free org id. */
  lemma OrgKeyIsNotEndUserKey(id: string, org: string, endUser: string)
    requires ColonFree(id)
    ensures OrgKey(id) != EndUserKey(org, endUser)
  {
    assert EndUserKey(org, endUser)[4 + |org|] == ':';
    assert forall i :: 4 <= i < |OrgKey(id)| ==> OrgKey(id)[i] == id[i - 4] && OrgKey(id)[i] != ':';
  }

  lemma OrgKeyInjective(o: string, o': string)
    requires OrgKey(o) == OrgKey(o')
    ensures o == o'
  {
    assert OrgKey(o)[4..] == o && OrgKey(o')[4..] == o';
  }

  /** Shard numbers are written in decimal, so a filter's name tells its org and its shard. */
  lemma BloomKeyParts(o: string, m: nat, o': string, n: nat)
    requires BloomKey(o, m) == BloomKey(o', n)
    ensures o == o' && m == n
  {
    DecimalIsColonFree(m);
    DecimalIsColonFree(n);
    assert BloomKey(o, m)[3..] == PairKey(o, Decimal(m)) && BloomKey(o', n)[3..] == PairKey(o', Decimal(n));
    ColonFreeRightPart(o, Decimal(m), o', Decimal(n));
    DecimalInjective(m, n);
  }

  /** With colon-free right parts, a joined pair determines both parts. */
  lemma ColonFreeRightPart(o: string, e: string, o': string, e': string)
    requires ColonFree(e) && ColonFree(e') && PairKey(o, e) == PairKey(o', e')
    ensures o == o' && e == e'
  {
    var k := PairKey(o, e);
    assert k[|o|] == ':' && k[|o'|] == ':';
    assert forall i :: |o| < i < |k| ==> k[i] == e[i - |o| - 1] && k[i] != ':';
    assert forall i :: |o'| < i < |k| ==> k[i] == e'[i - |o'| - 1] && k[i] != ':';
    assert k[..|o|] == o && k[|o| + 1..] == e && k[..|o'|] == o' && k[|o'| + 1..] == e';
  }

  lemma BloomKeyInjective(o: string, o': string, shard: nat)
    requires BloomKey(o, shard) == BloomKey(o', shard)
    ensures o == o'
  {
    var k, d := BloomKey(o, shard), Decimal(shard);
    assert k[3..|k| - |d| - 1] == o && k[3..|k| - |d| - 1] == o';
  }

  /** Decimal numbers: digits only, and determined by them. */
  lemma {:induction false} DecimalIsColonFree(n: nat)
    ensures ColonFree(Decimal(n)) && |Decimal(n)| >= 1
  {
    if n >= 10 {
      DecimalIsColonFree(n / 10);
    }
  }

  lemma {:induction false} DecimalInjective(m: nat, n: nat)
    requires Decimal(m) == Decimal(n)
    ensures m == n
  {
    var s := Decimal(m);
    assert s[|s| - 1] == '0' + (m % 10) as char == '0' + (n % 10) as char;
    if m >= 10 {
      DecimalIsColonFree(m / 10);
      assert s[..|s| - 1] == Decimal(m / 10);
    }
    if n >= 10 {
      DecimalIsColonFree(n / 10);
      assert s[..|s| - 1] == Decimal(n / 10);
    }
    if m >= 10 && n >= 10 {
      DecimalInjective(m / 10, n / 10);
    }
  }

  function Pow10(k: nat): nat {
    if k == 0 then 1 else 10 * Pow10(k - 1)
  }

  lemma {:induction false} DecimalLength(n: nat, k: nat)
    requires k >= 1 && n < Pow10(k)
    ensures |Decimal(n)| <= k
  {
    if n >= 10 {
      assert k > 1 by {
        assert Pow10(1) == 10 * Pow10(0) == 10;
      }
      assert n / 10 < Pow10(k - 1);
      DecimalLength(n / 10, k - 1);
    }
  }
}
