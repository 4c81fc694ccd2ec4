/**
 * The strings the alert loop builds: the spoken warning, the snapshot file
 * name, the e-mail body and the WhatsApp body, with Python's `str(int)` and
 * `sep.join(parts)` written out.
 */
module Text {
  import opened Counting

  datatype Option<T> = None | Some(value: T)

  // ---------------------------------------------------------------- str(n)

  function DigitChar(d: nat): char
    requires d < 10
  {
    ('0' as int + d) as char
  }

  predicate IsDigit(c: char)
  {
    '0' as int <= c as int <= '9' as int
  }

  /** `str(n)` for a non-negative integer: decimal digits, no leading zero. */
  function Decimal(n: nat): string
  {
    if n < 10 then [DigitChar(n)] else Decimal(n / 10) + [DigitChar(n % 10)]
  }

  /** The value of a string of decimal digits, read left to right. */
  function DecimalValue(s: string): nat
    requires forall k :: 0 <= k < |s| ==> IsDigit(s[k])
  {
    if s == [] then 0
    else
      assert IsDigit(s[|s| - 1]);
      DecimalValue(s[..|s| - 1]) * 10 + (s[|s| - 1] as int - '0' as int)
  }

  /** `str(n)` is a well-formed decimal numeral that reads back as `n`. */
  lemma {:induction false} DecimalRoundTrip(n: nat)
    ensures |Decimal(n)| > 0
    ensures forall k :: 0 <= k < |Decimal(n)| ==> IsDigit(Decimal(n)[k])
    ensures n > 0 ==> Decimal(n)[0] != '0'
    ensures DecimalValue(Decimal(n)) == n
  {
    if n >= 10 {
      DecimalRoundTrip(n / 10);
      var s := Decimal(n);
      assert s[..|s| - 1] == Decimal(n / 10);
      assert s[0] == Decimal(n / 10)[0];
    }
  }

  // ------------------------------------------------------------ sep.join(ps)

  /** `sep.join(ps)`, defined from the right as the parts are appended. */
  function Join(ps: seq<string>, sep: string): string
  {
    if ps == [] then ""
    else if |ps| == 1 then ps[0]
    else Join(ps[..|ps| - 1], sep) + sep + ps[|ps| - 1]
  }

  /** Joining splits at every boundary between parts: each part sits between separators. */
  lemma {:induction false} JoinSplit(ps: seq<string>, sep: string, i: nat)
    requires 0 < i < |ps|
    ensures Join(ps, sep) == Join(ps[..i], sep) + sep + Join(ps[i..], sep)
    decreases |ps|
  {
    var n := |ps|;
    var ps' := ps[..n - 1];
    if i == n - 1 {
      assert ps[i..] == [ps[n - 1]];
    } else {
      JoinSplit(ps', sep, i);
      assert ps'[..i] == ps[..i];
      assert ps[i..][..|ps[i..]| - 1] == ps'[i..];
      assert ps[i..][|ps[i..]| - 1] == ps[n - 1];
    }
  }

  /** Each part appears whole, after the join of the parts before it and a separator. */
  lemma {:induction false} JoinParts(ps: seq<string>, sep: string, i: nat)
    requires i < |ps|
    ensures Join(ps, sep) ==
      (if i == 0 then "" else Join(ps[..i], sep) + sep) + ps[i] +
      (if i == |ps| - 1 then "" else sep + Join(ps[i + 1..], sep))
  {
    var rest := ps[i..];
    if i > 0 {
      JoinSplit(ps, sep, i);
    } else {
      assert rest == ps;
    }
    if i < |ps| - 1 {
      JoinSplit(rest, sep, 1);
      assert rest[..1] == [ps[i]];
      assert rest[1..] == ps[i + 1..];
    } else {
      assert rest == [ps[i]];
    }
  }

  // ----------------------------------------------------------- s.split(sep)

  /**
   * Python's `s.split(sep)` for a non-empty separator: cut at every
   * occurrence, scanning left to right. It is the reader the joins are
   * checked against.
   */
  function Split(s: string, sep: string): (r: seq<string>)
    requires |sep| > 0
    ensures |r| >= 1
    decreases |s|
  {
    if |s| < |sep| then [s]
    else if s[..|sep|] == sep then [""] + Split(s[|sep|..], sep)
    else
      var t := Split(s[1..], sep);
      [[s[0]] + t[0]] + t[1..]
  }

  /** Text without the separator's first character is copied into the first piece. */
  lemma {:induction false} SplitPlainPrefix(a: string, t: string, sep: string)
    requires |sep| > 0 && sep[0] !in a
    ensures Split(a + t, sep) == [a + Split(t, sep)[0]] + Split(t, sep)[1..]
    decreases |a|
  {
    var s := a + t;
    var r := Split(t, sep);
    if a == [] {
      assert s == t && a + r[0] == r[0];
      assert r == [r[0]] + r[1..];
    } else if |s| >= |sep| {
      var u := Split(s[1..], sep);
      assert Split(s, sep) == [[s[0]] + u[0]] + u[1..] by {
        assert s[..|sep|][0] == a[0] != sep[0];
      }
      assert u == [a[1..] + r[0]] + r[1..] by {
        assert s[1..] == a[1..] + t;
        SplitPlainPrefix(a[1..], t, sep);
      }
      assert [s[0]] + (a[1..] + r[0]) == a + r[0];
    } else {
      assert Split(s, sep) == [s] && r == [t];
    }
  }

  lemma SplitAtSeparator(t: string, sep: string)
    requires |sep| > 0
    ensures Split(sep + t, sep) == [""] + Split(t, sep)
  {
    assert (sep + t)[..|sep|] == sep;
    assert (sep + t)[|sep|..] == t;
  }

  /** A piece, a separator and the rest split into the piece and the rest's pieces. */
  lemma SplitPieceThenRest(p: string, sep: string, t: string)
    requires |sep| > 0 && sep[0] !in p
    ensures Split(p + sep + t, sep) == [p] + Split(t, sep)
  {
    SplitAtSeparator(t, sep);
    SplitPlainPrefix(p, sep + t, sep);
    assert p + sep + t == p + (sep + t);
    assert p + "" == p;
  }

  /**
   * Splitting a join gives the parts back, provided no part contains the
   * separator's first character.
   */
  lemma {:induction false} SplitJoin(ps: seq<string>, sep: string)
    requires |sep| > 0 && ps != []
    requires forall k :: 0 <= k < |ps| ==> sep[0] !in ps[k]
    ensures Split(Join(ps, sep), sep) == ps
    decreases |ps|
  {
    if |ps| == 1 {
      assert Split(ps[0], sep) == [ps[0]] by {
        SplitPlainPrefix(ps[0], "", sep);
        assert ps[0] + "" == ps[0];
      }
    } else {
      var rest := ps[1..];
      var j := Join(rest, sep);
      assert Join(ps, sep) == ps[0] + sep + j by {
        JoinSplit(ps, sep, 1);
        assert ps[..1] == [ps[0]];
      }
      assert Split(j, sep) == rest by {
        assert forall k :: 0 <= k < |rest| ==> rest[k] == ps[k + 1];
        SplitJoin(rest, sep);
      }
      assert Split(ps[0] + sep + j, sep) == [ps[0]] + rest by {
        SplitPieceThenRest(ps[0], sep, j);
      }
      assert ps == [ps[0]] + rest;
    }
  }

  /** A character in neither the parts nor the separator is not in the join. */
  lemma {:induction false} JoinAvoids(ps: seq<string>, sep: string, c: char)
    requires c !in sep
    requires forall k :: 0 <= k < |ps| ==> c !in ps[k]
    ensures c !in Join(ps, sep)
  {
    if |ps| > 1 {
      var p := ps[..|ps| - 1];
      assert forall k :: 0 <= k < |p| ==> p[k] == ps[k];
      JoinAvoids(p, sep, c);
    }
  }

  // ------------------------------------------------------- the alert message

  /** One part of the warning: `"<count> <label>"`, with the count-1 case spelled separately. */
  function ItemText(e: Entry): string
  {
    if e.count > 1 then Decimal(e.count) + " " + e.name else "1 " + e.name
  }

  /** Both branches render the count the same way for every count the counter holds. */
  lemma ItemTextUniform(e: Entry)
    requires e.count >= 1
    ensures ItemText(e) == Decimal(e.count) + " " + e.name
    ensures ItemText(e)[..|Decimal(e.count)|] == Decimal(e.count)
  {
    if e.count == 1 {
      assert Decimal(1) == "1";
    }
  }

  const WarningLead: string := "Warning! "
  const WarningTail: string := " detected."

  function AlertMessage(parts: seq<string>): string
  {
    WarningLead + Join(parts, ", ") + WarningTail
  }

  // --------------------------------------------------------- snapshot names

  const SnapshotPrefix: string := "alert_"
  const SnapshotSuffix: string := ".jpg"
  /** Length of a `%Y%m%d_%H%M%S` time stamp. */
  const FileStampLength: nat := 15

  /** The file name `save_snapshot` writes to. */
  function SnapshotFileName(tag: string, stamp: string): string
  {
    SnapshotPrefix + tag + "_" + stamp + SnapshotSuffix
  }

  /** Reads a snapshot file name back into its label and time stamp. */
  function ParseSnapshotFileName(file: string): Option<(string, string)>
  {
    var fixed := |SnapshotPrefix| + 1 + FileStampLength + |SnapshotSuffix|;
    if |file| < fixed || file[..|SnapshotPrefix|] != SnapshotPrefix
       || file[|file| - |SnapshotSuffix|..] != SnapshotSuffix
       || file[|file| - |SnapshotSuffix| - FileStampLength - 1] != '_'
    then None
    else
      var stampAt := |file| - |SnapshotSuffix| - FileStampLength;
      Some((file[|SnapshotPrefix|..stampAt - 1], file[stampAt..|file| - |SnapshotSuffix|]))
  }

  /** A snapshot name determines the label and the stamp it was made from. */
  lemma SnapshotFileNameRoundTrip(tag: string, stamp: string)
    requires |stamp| == FileStampLength
    ensures ParseSnapshotFileName(SnapshotFileName(tag, stamp)) == Some((tag, stamp))
  {
    var f := SnapshotFileName(tag, stamp);
    assert f == SnapshotPrefix + (tag + "_" + stamp + SnapshotSuffix);
    assert f[..|SnapshotPrefix|] == SnapshotPrefix;
    assert f[|f| - |SnapshotSuffix|..] == SnapshotSuffix;
    var stampAt := |f| - |SnapshotSuffix| - FileStampLength;
    assert f[stampAt - 1] == '_';
    assert f[|SnapshotPrefix|..stampAt - 1] == tag;
    assert f[stampAt..|f| - |SnapshotSuffix|] == stamp;
  }

  // ------------------------------------------------------------ e-mail body

  const EmailLead: string := "Danger detected: "

  function EmailBody(labels: seq<string>): string
  {
    EmailLead + Join(labels, ", ")
  }

  /** The e-mail body reads back: after its lead, splitting at `", "` gives the labels. */
  lemma EmailBodyParse(labels: seq<string>)
    requires forall k :: 0 <= k < |labels| ==> ',' !in labels[k]
    ensures EmailBody(labels)[..|EmailLead|] == EmailLead
    ensures labels != [] ==> Split(EmailBody(labels)[|EmailLead|..], ", ") == labels
  {
    assert EmailBody(labels)[|EmailLead|..] == Join(labels, ", ");
    if labels != [] {
      SplitJoin(labels, ", ");
    }
  }

  // ---------------------------------------------------------- WhatsApp body

  /**
   * The outcome of the geolocation lookup: a failure anywhere in it, or the
   * JSON object's `city`, `region` and `country` entries, each possibly absent.
   */
  datatype GeoLookup =
    | LookupFailed
    | LookupDone(city: Option<string>, region: Option<string>, country: Option<string>)

  /** `data.get(key, '')`. */
  function OrEmpty(v: Option<string>): string
  {
    match v
    case Some(s) => s
    case None => ""
  }

  const LocationUnavailable: string := "Location unavailable"

  function LocationText(g: GeoLookup): string
  {
    match g
    case LookupFailed => LocationUnavailable
    case LookupDone(city, region, country) => OrEmpty(city) + "," + OrEmpty(region) + "," + OrEmpty(country)
  }

  /**
   * The location reads back: a failed lookup gives the fixed text, a single
   * comma-free field; a completed one gives city, region and country when
   * none of them contains a comma.
   */
  lemma LocationParse(g: GeoLookup)
    ensures g.LookupFailed? ==> Split(LocationText(g), ",") == [LocationUnavailable]
    ensures g.LookupDone? && ',' !in OrEmpty(g.city) && ',' !in OrEmpty(g.region) &&
            ',' !in OrEmpty(g.country) ==>
      Split(LocationText(g), ",") == [OrEmpty(g.city), OrEmpty(g.region), OrEmpty(g.country)]
  {
    if g.LookupFailed? {
      assert forall k :: 0 <= k < |LocationUnavailable| ==> LocationUnavailable[k] != ',';
      assert LocationText(g) == Join([LocationUnavailable], ",");
      SplitJoin([LocationUnavailable], ",");
    } else {
      var fields := [OrEmpty(g.city), OrEmpty(g.region), OrEmpty(g.country)];
      assert fields[..2][..1] == [fields[0]] && fields[..2] == [fields[0], fields[1]];
      assert Join(fields[..2], ",") == fields[0] + "," + fields[1];
      assert Join(fields, ",") == Join(fields[..2], ",") + "," + fields[2];
      assert LocationText(g) == Join(fields, ",");
      if ',' !in OrEmpty(g.city) && ',' !in OrEmpty(g.region) && ',' !in OrEmpty(g.country) {
        SplitJoin(fields, ",");
      }
    }
  }

  const WhatsAppLead: string := "DANGER DETECTED: "
  /** A line break, the round pushpin U+1F4CD, then the location tag. */
  const LocationTag: string := "\n\U{1F4CD}Location:"

  function WhatsAppBody(labels: seq<string>, location: string): string
  {
    WhatsAppLead + Join(labels, ", ") + LocationTag + location
  }

  /**
   * The WhatsApp body reads back: splitting at the location tag gives the
   * lead with the labels, which split at `", "` give the labels again, and
   * the location. Neither the labels nor the location may contain a line
   * break, the tag's first character.
   */
  lemma WhatsAppBodyParse(labels: seq<string>, location: string)
    requires forall k :: 0 <= k < |labels| ==> ',' !in labels[k] && '\n' !in labels[k]
    requires '\n' !in location
    ensures var parts := Split(WhatsAppBody(labels, location), LocationTag);
      |parts| == 2 && parts[1] == location &&
      |parts[0]| >= |WhatsAppLead| && parts[0][..|WhatsAppLead|] == WhatsAppLead &&
      (labels != [] ==> Split(parts[0][|WhatsAppLead|..], ", ") == labels)
  {
    var j := Join(labels, ", ");
    var head := WhatsAppLead + j;
    JoinAvoids(labels, ", ", '\n');
    assert forall k :: 0 <= k < |WhatsAppLead| ==> WhatsAppLead[k] != '\n';
    assert '\n' !in head;
    assert [head, location][..1] == [head];
    assert WhatsAppBody(labels, location) == Join([head, location], LocationTag);
    SplitJoin([head, location], LocationTag);
    assert head[|WhatsAppLead|..] == j;
    if labels != [] {
      SplitJoin(labels, ", ");
    }
  }

  /** The location never holds a line break when the lookup's fields do not. */
  lemma LocationSingleLine(g: GeoLookup)
    requires g.LookupDone? ==>
      '\n' !in OrEmpty(g.city) && '\n' !in OrEmpty(g.region) && '\n' !in OrEmpty(g.country)
    ensures '\n' !in LocationText(g)
  {
    assert forall k :: 0 <= k < |LocationUnavailable| ==> LocationUnavailable[k] != '\n';
  }
}
