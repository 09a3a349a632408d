/** The label codec of the GCP driver: identity keys become short legal keys, values lose their case and get it back. */
module GcpLabels {

  const MAX_LABEL_LEN: nat := 63

  type Labels = map<string, string>

  const SHORT_NAMES: Labels := map[
    "fleetplane.io/managed" := "fp-managed",
    "fleetplane.io/owner" := "fp-owner",
    "fleetplane.io/id" := "fp-id",
    "fleetplane.io/op" := "fp-op",
    "fleetplane.io/class" := "fp-class",
    "fleetplane.io/test" := "fp-test",
    "fleetplane.io/test-run" := "fp-test-run"
  ]

  predicate Reserved(k: string) {
    k in SHORT_NAMES
  }

  /** Keys whose values are prefixed ULIDs. */
  predicate RestoresCase(short: string) {
    short == "fp-owner" || short == "fp-id" || short == "fp-op" || short == "fp-test-run"
  }

  predicate Lower(c: char) {
    'a' <= c <= 'z'
  }

  predicate Upper(c: char) {
    'A' <= c <= 'Z'
  }

  predicate Digit(c: char) {
    '0' <= c <= '9'
  }

  predicate LegalChar(c: char) {
    Lower(c) || Digit(c) || c == '-' || c == '_'
  }

  predicate Legal(s: string) {
    forall i | 0 <= i < |s| :: LegalChar(s[i])
  }

  /** Lower case, as far as it reaches the legal letters: two letters outside ASCII also have an ASCII lower case. */
  function ToLower(c: char): char {
    if Upper(c) then (c as int + 32) as char
    else if c == '\U{212A}' then 'k'
    else if c == '\U{0130}' then 'i'
    else c
  }

  function ToUpper(c: char): char {
    if Lower(c) then (c as int - 32) as char else c
  }

  function CleanChar(c: char): char {
    if LegalChar(ToLower(c)) then ToLower(c) else '-'
  }

  function Clean(s: string): string {
    seq(|s|, i requires 0 <= i < |s| => CleanChar(s[i]))
  }

  function Uppercase(s: string): string {
    seq(|s|, i requires 0 <= i < |s| => ToUpper(s[i]))
  }

  method SanitizeRunes(s: string) returns (out: string)
    ensures out == Clean(s) && Legal(out)
  {
    out := "";
    for i := 0 to |s|
      invariant out == Clean(s[..i])
    {
      var r := ToLower(s[i]);
      if Lower(r) || Digit(r) || r == '-' || r == '_' {
        out := out + [r];
      } else {
        out := out + ['-'];
      }
    }
    assert s[..|s|] == s;
  }

  function Truncated(s: string): string {
    if |s| > MAX_LABEL_LEN then s[..MAX_LABEL_LEN] else s
  }

  function EncodedKey(k: string): string {
    if k in SHORT_NAMES then SHORT_NAMES[k]
    else
      var s := Clean(k);
      Truncated(if s == "" || !Lower(s[0]) then "u-" + s else s)
  }

  function EncodedValue(v: string): string {
    Truncated(Clean(v))
  }

  method EncodeKey(k: string) returns (out: string)
    ensures out == EncodedKey(k)
  {
    if k in SHORT_NAMES {
      return SHORT_NAMES[k];
    }
    var s := SanitizeRunes(k);
    if s == "" || s[0] < 'a' || s[0] > 'z' {
      s := "u-" + s;
    }
    out := Truncated(s);
  }

  method EncodeValue(v: string) returns (out: string)
    ensures out == EncodedValue(v) && |out| <= MAX_LABEL_LEN && Legal(out)
  {
    out := SanitizeRunes(v);
    out := Truncated(out);
  }

  /** One label of each encoded key survives; which one is unspecified when several keys encode alike. */
  ghost predicate Encodes(labels: Labels, raw: Labels) {
    && (forall k <- labels.Keys :: EncodedKey(k) in raw)
    && forall r <- raw.Keys :: exists k :: k in labels && EncodedKey(k) == r && raw[r] == EncodedValue(labels[k])
  }

  method EncodeLabels(labels: Labels) returns (raw: Labels)
    ensures Encodes(labels, raw)
  {
    raw := map[];
    var todo := labels.Keys;
    while todo != {}
      invariant todo <= labels.Keys
      invariant forall k <- labels.Keys - todo :: EncodedKey(k) in raw
      invariant forall r <- raw.Keys :: exists k :: k in labels && EncodedKey(k) == r && raw[r] == EncodedValue(labels[k])
      decreases todo
    {
      var k :| k in todo;
      todo := todo - {k};
      var key := EncodeKey(k);
      var value := EncodeValue(labels[k]);
      raw := raw[key := value];
    }
  }

  // ---- Decoding ----

  /** The position of the separator, or the length of the string. */
  function Separator(s: string): (i: nat)
    ensures i <= |s| && (i < |s| ==> s[i] == '_') && forall j | 0 <= j < i :: s[j] != '_'
  {
    if s == "" || s[0] == '_' then 0 else 1 + Separator(s[1..])
  }

  /** A lower-case prefix, a separator, and a payload. */
  predicate UlidShaped(s: string, payload: char -> bool) {
    var i := Separator(s);
    && 0 < i < |s| - 1
    && (forall j | 0 <= j < i :: Lower(s[j]))
    && forall j | i < j < |s| :: payload(s[j])
  }

  predicate UlidLike(s: string) {
    UlidShaped(s, c => Digit(c) || Lower(c))
  }

  /** The canonical form of an identity value: the payload is upper case. */
  predicate PrefixedUlid(s: string) {
    UlidShaped(s, c => Digit(c) || Upper(c))
  }

  function DecodedValue(short: string, v: string): string {
    if RestoresCase(short) && UlidLike(v)
    then var i := Separator(v); v[..i] + "_" + Uppercase(v[i + 1..])
    else v
  }

  /** The long key of a short one; any other key stands for itself. */
  function LongOf(short: string): string {
    match short
    case "fp-managed" => "fleetplane.io/managed"
    case "fp-owner" => "fleetplane.io/owner"
    case "fp-id" => "fleetplane.io/id"
    case "fp-op" => "fleetplane.io/op"
    case "fp-class" => "fleetplane.io/class"
    case "fp-test" => "fleetplane.io/test"
    case "fp-test-run" => "fleetplane.io/test-run"
    case _ => short
  }

  lemma LongOfShort(k: string)
    requires Reserved(k)
    ensures LongOf(EncodedKey(k)) == k
  {
  }

  /** Every raw label is decoded under its long key; which one wins is unspecified when two share it. */
  ghost predicate Decodes(raw: Labels, labels: Labels) {
    && (forall r <- raw.Keys :: LongOf(r) in labels)
    && forall k <- labels.Keys :: exists r :: r in raw && LongOf(r) == k && labels[k] == DecodedValue(r, raw[r])
  }

  method DecodeLabels(raw: Labels) returns (labels: Labels)
    ensures Decodes(raw, labels)
  {
    labels := map[];
    var todo := raw.Keys;
    while todo != {}
      invariant todo <= raw.Keys
      invariant forall r <- raw.Keys - todo :: LongOf(r) in labels
      invariant forall k <- labels.Keys :: exists r :: r in raw && LongOf(r) == k && labels[k] == DecodedValue(r, raw[r])
      decreases todo
    {
      var r :| r in todo;
      todo := todo - {r};
      var v := raw[r];
      if RestoresCase(r) && UlidLike(v) {
        var i := Separator(v);
        v := v[..i] + "_" + Uppercase(v[i + 1..]);
      }
      labels := labels[LongOf(r) := v];
    }
  }

  // ---- The round trip ----

  /** A value the codec brings back unchanged: short enough, and a canonical identity value or all legal characters. */
  predicate Canonical(short: string, v: string) {
    && |v| <= MAX_LABEL_LEN
    && if RestoresCase(short) then PrefixedUlid(v) || (Legal(v) && !UlidLike(v)) else Legal(v)
  }

  lemma CleanIsIdentity(v: string)
    ensures Clean(v) == v <==> Legal(v)
  {
    if Clean(v) == v {
      forall i | 0 <= i < |v|
        ensures LegalChar(v[i])
      {
        assert Clean(v)[i] == v[i];
      }
    }
  }

  /** Cleaning a canonical identity value only lowers its payload. */
  lemma CleanUlid(v: string)
    requires PrefixedUlid(v)
    ensures UlidLike(Clean(v)) && Separator(Clean(v)) == Separator(v)
    ensures var e, i := Clean(v), Separator(v); e[..i] + "_" + Uppercase(e[i + 1..]) == v
  {
    var e, i := Clean(v), Separator(v);
    assert e[i] == '_' && forall j | 0 <= j < i :: e[j] == v[j];
    assert Separator(e) == i;
    forall j | i < j < |v|
      ensures (Digit(e[j]) || Lower(e[j])) && ToUpper(e[j]) == v[j]
    {
    }
    var d := e[..i] + "_" + Uppercase(e[i + 1..]);
    forall j | 0 <= j < |v|
      ensures d[j] == v[j]
    {
      if j > i { assert d[j] == ToUpper(e[i + 1..][j - i - 1]); }
    }
  }

  /** What decoding restores has the canonical form. */
  lemma RestoredIsUlid(e: string)
    requires UlidLike(e)
    ensures PrefixedUlid(e[..Separator(e)] + "_" + Uppercase(e[Separator(e) + 1..]))
  {
    var i := Separator(e);
    var d := e[..i] + "_" + Uppercase(e[i + 1..]);
    assert d[i] == '_' && forall j | 0 <= j < i :: d[j] == e[j];
    assert Separator(d) == i;
    forall j | i < j < |d|
      ensures Digit(d[j]) || Upper(d[j])
    {
      assert d[j] == ToUpper(e[i + 1..][j - i - 1]) == ToUpper(e[j]);
    }
  }

  lemma ValueRoundTripIff(short: string, v: string)
    ensures DecodedValue(short, EncodedValue(v)) == v <==> Canonical(short, v)
  {
    var e := EncodedValue(v);
    CleanIsIdentity(v);
    if |v| <= MAX_LABEL_LEN && RestoresCase(short) {
      if PrefixedUlid(v) { CleanUlid(v); }
      if UlidLike(e) { RestoredIsUlid(e); }
    }
  }

  predicate AllReserved(labels: Labels) {
    forall k <- labels.Keys :: Reserved(k)
  }

  /** What a round trip yields for reserved keys. */
  lemma RoundTripValue(labels: Labels, raw: Labels, back: Labels, k: string)
    requires AllReserved(labels) && Encodes(labels, raw) && Decodes(raw, back)
    ensures k in back <==> k in labels
    ensures k in labels ==> back[k] == DecodedValue(EncodedKey(k), EncodedValue(labels[k]))
  {
    hide DecodedValue, EncodedValue, EncodedKey, LongOf, Reserved;
    if k in labels {
      LongOfShort(k);
      assert LongOf(EncodedKey(k)) in back;
    }
    if k in back {
      var r :| r in raw && LongOf(r) == k && back[k] == DecodedValue(r, raw[r]);
      var q :| q in labels && EncodedKey(q) == r && raw[r] == EncodedValue(labels[q]);
      LongOfShort(q);
    }
  }

  /** Decoding undoes encoding for reserved keys exactly when every value is canonical for its key. */
  lemma RoundTripIff(labels: Labels, raw: Labels, back: Labels)
    requires AllReserved(labels) && Encodes(labels, raw) && Decodes(raw, back)
    ensures back == labels <==> forall k <- labels.Keys :: Canonical(EncodedKey(k), labels[k])
  {
    hide Encodes, Decodes, Canonical, DecodedValue, EncodedValue, EncodedKey;
    forall k: string
      ensures k in back <==> k in labels
      ensures k in labels ==> (back[k] == labels[k] <==> Canonical(EncodedKey(k), labels[k]))
    {
      RoundTripValue(labels, raw, back, k);
      if k in labels { ValueRoundTripIff(EncodedKey(k), labels[k]); }
    }
  }

  /** A lower-case payload is where it fails: the owner comes back in upper case. */
  lemma LowercasePayloadIsLost()
    ensures DecodedValue("fp-owner", EncodedValue("own_a")) == "own_A"
  {
    var e := Clean("own_a");
    assert e == "own_a";
    assert Separator(e) == 3;
    assert UlidLike(e);
    assert e[4..] == "a" && Uppercase("a") == "A";
  }
}
