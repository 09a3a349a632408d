/** The tag codec of the DigitalOcean driver: identity labels travel as flat tags beside foreign ones. */
module DoTags {
  import opened Basics

  type Labels = map<string, string>

  const TAG_PREFIX := "fp-"

  const SHORT_NAMES: Labels := map[
    "fleetplane.io/managed" := "managed",
    "fleetplane.io/owner" := "owner",
    "fleetplane.io/id" := "id",
    "fleetplane.io/op" := "op",
    "fleetplane.io/class" := "class",
    "fleetplane.io/test" := "test",
    "fleetplane.io/test-run" := "test-run",
    "fleetplane.io/pool" := "pool"
  ]

  function LongOf(short: string): Option<string> {
    match short
    case "managed" => Some("fleetplane.io/managed")
    case "owner" => Some("fleetplane.io/owner")
    case "id" => Some("fleetplane.io/id")
    case "op" => Some("fleetplane.io/op")
    case "class" => Some("fleetplane.io/class")
    case "test" => Some("fleetplane.io/test")
    case "test-run" => Some("fleetplane.io/test-run")
    case "pool" => Some("fleetplane.io/pool")
    case _ => None
  }

  predicate TagChar(c: char) {
    'a' <= c <= 'z' || 'A' <= c <= 'Z' || '0' <= c <= '9' || c == ':' || c == '-' || c == '_'
  }

  predicate Legal(s: string) {
    forall i | 0 <= i < |s| :: TagChar(s[i])
  }

  function Clean(s: string): string {
    seq(|s|, i requires 0 <= i < |s| => if TagChar(s[i]) then s[i] else '-')
  }

  method SanitizeTag(s: string) returns (out: string)
    ensures out == Clean(s) && Legal(out)
  {
    out := "";
    for i := 0 to |s|
      invariant out == Clean(s[..i])
    {
      if TagChar(s[i]) {
        out := out + [s[i]];
      } else {
        out := out + ['-'];
      }
    }
    assert s[..|s|] == s;
  }

  /** A tag body names its key, a colon, and the value. */
  function Body(short: string, v: string): string {
    short + ":" + Clean(v)
  }

  /** Unknown keys have no tag. */
  function TagOf(k: string, v: string): Option<string> {
    if k in SHORT_NAMES then Some(TAG_PREFIX + Body(SHORT_NAMES[k], v)) else None
  }

  method EncodeTag(k: string, v: string) returns (tag: Option<string>)
    ensures tag == TagOf(k, v)
  {
    if k !in SHORT_NAMES {
      return None;
    }
    var value := SanitizeTag(v);
    tag := Some(TAG_PREFIX + SHORT_NAMES[k] + ":" + value);
    assert TAG_PREFIX + SHORT_NAMES[k] + ":" + value == TAG_PREFIX + Body(SHORT_NAMES[k], v);
  }

  predicate Ours(tag: string) {
    TAG_PREFIX <= tag
  }

  /** A tag list whose fleet tags are the encodings of these labels; any other tags lack the prefix. */
  ghost predicate Carries(tags: seq<string>, labels: Labels) {
    && (forall k <- labels.Keys :: TagOf(k, labels[k]).Some? ==> TagOf(k, labels[k]).value in tags)
    && forall tag <- tags :: Ours(tag) ==> exists k :: k in labels && TagOf(k, labels[k]) == Some(tag)
  }

  method EncodeTags(labels: Labels) returns (tags: seq<string>)
    ensures Carries(tags, labels) && forall tag <- tags :: Ours(tag)
  {
    tags := [];
    var todo := labels.Keys;
    while todo != {}
      invariant todo <= labels.Keys
      invariant forall k <- labels.Keys - todo :: TagOf(k, labels[k]).Some? ==> TagOf(k, labels[k]).value in tags
      invariant forall tag <- tags :: exists k :: k in labels && TagOf(k, labels[k]) == Some(tag)
      decreases todo
    {
      var k :| k in todo;
      todo := todo - {k};
      var tag := EncodeTag(k, labels[k]);
      if tag.Some? {
        tags := tags + [tag.value];
      }
    }
  }

  // ---- Decoding ----

  /** The position of the first colon, or the length of the string. */
  function Colon(s: string): (i: nat)
    ensures i <= |s| && (i < |s| ==> s[i] == ':') && forall j | 0 <= j < i :: s[j] != ':'
  {
    if s == "" || s[0] == ':' then 0 else 1 + Colon(s[1..])
  }

  /** The label a tag stands for, if it is one of ours. */
  function LabelOf(tag: string): Option<(string, string)> {
    if !Ours(tag) then None
    else
      var body := tag[|TAG_PREFIX|..];
      var i := Colon(body);
      if i == |body| || LongOf(body[..i]).None? then None else Some((LongOf(body[..i]).value, body[i + 1..]))
  }

  /** Later tags win. */
  function Decoded(tags: seq<string>): Labels {
    if |tags| == 0 then map[]
    else
      var rest := Decoded(tags[..|tags| - 1]);
      var l := LabelOf(tags[|tags| - 1]);
      if l.Some? then rest[l.value.0 := l.value.1] else rest
  }

  method DecodeTags(tags: seq<string>) returns (labels: Labels)
    ensures labels == Decoded(tags)
  {
    labels := map[];
    for n := 0 to |tags|
      invariant labels == Decoded(tags[..n])
    {
      assert tags[..n + 1][..n] == tags[..n];
      var tag := tags[n];
      if TAG_PREFIX <= tag {
        var body := tag[|TAG_PREFIX|..];
        var i := Colon(body);
        if i < |body| {
          var long := LongOf(body[..i]);
          if long.Some? {
            labels := labels[long.value := body[i + 1..]];
          }
        }
      }
    }
    assert tags[..|tags|] == tags;
  }

  // ---- The round trip ----

  lemma ShortNames(k: string)
    requires k in SHORT_NAMES
    ensures LongOf(SHORT_NAMES[k]) == Some(k) && ':' !in SHORT_NAMES[k]
  {
  }

  /** A fleet tag decodes to the label it was made from, with the value cleaned. */
  lemma TagBack(k: string, v: string)
    requires k in SHORT_NAMES
    ensures LabelOf(TagOf(k, v).value) == Some((k, Clean(v)))
  {
    ShortNames(k);
    var short := SHORT_NAMES[k];
    var body := Body(short, v);
    hide LongOf, Clean;
    var tag := TAG_PREFIX + body;
    assert tag[|TAG_PREFIX|..] == body;
    assert body[|short|] == ':';
    assert forall j | 0 <= j < |short| :: body[j] == short[j] && short[j] in short;
    assert Colon(body) == |short|;
    assert body[..|short|] == short && body[|short| + 1..] == Clean(v);
  }

  lemma {:induction false} DecodedHas(tags: seq<string>, k: string)
    ensures k in Decoded(tags) <==> exists i :: 0 <= i < |tags| && LabelOf(tags[i]).Some? && LabelOf(tags[i]).value.0 == k
    ensures k in Decoded(tags) ==> exists i :: 0 <= i < |tags| && LabelOf(tags[i]) == Some((k, Decoded(tags)[k]))
  {
    hide LabelOf;
    if |tags| > 0 {
      DecodedHas(tags[..|tags| - 1], k);
    }
  }

  predicate AllReserved(labels: Labels) {
    forall k <- labels.Keys :: k in SHORT_NAMES
  }

  /** Whatever the order and whatever foreign tags stand between them, the tags decode to the reserved labels, cleaned. */
  lemma RoundTripValues(labels: Labels, tags: seq<string>, k: string)
    requires Carries(tags, labels)
    ensures k in Decoded(tags) <==> k in labels && k in SHORT_NAMES
    ensures k in Decoded(tags) ==> Decoded(tags)[k] == Clean(labels[k])
  {
    DecodedHas(tags, k);
    if k in Decoded(tags) {
      var i :| 0 <= i < |tags| && LabelOf(tags[i]) == Some((k, Decoded(tags)[k]));
      assert tags[i] in tags;
      var q :| q in labels && TagOf(q, labels[q]) == Some(tags[i]);
      TagBack(q, labels[q]);
    }
    if k in labels && k in SHORT_NAMES {
      var tag := TagOf(k, labels[k]).value;
      TagBack(k, labels[k]);
      var i :| 0 <= i < |tags| && tags[i] == tag;
    }
  }

  lemma CleanIsIdentity(v: string)
    ensures Clean(v) == v <==> Legal(v)
  {
    if Clean(v) == v {
      forall i | 0 <= i < |v|
        ensures TagChar(v[i])
      {
        assert Clean(v)[i] == v[i];
      }
    }
  }

  /** Decoding undoes encoding, among foreign tags and in any order, exactly when every key is reserved and every value
      is made of tag characters. */
  lemma RoundTripIff(labels: Labels, tags: seq<string>)
    requires Carries(tags, labels)
    ensures Decoded(tags) == labels <==> AllReserved(labels) && forall k <- labels.Keys :: Legal(labels[k])
  {
    hide Carries, Decoded, Clean, Legal;
    forall k | k in labels
      ensures Clean(labels[k]) == labels[k] <==> Legal(labels[k])
    {
      CleanIsIdentity(labels[k]);
    }
    forall k: string
      ensures k in Decoded(tags) <==> k in labels && k in SHORT_NAMES
      ensures k in Decoded(tags) ==> Decoded(tags)[k] == Clean(labels[k])
    {
      RoundTripValues(labels, tags, k);
    }
  }
}
