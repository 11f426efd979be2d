/**
 * The CORS origin list of main.py:
 * `[domain.strip() for domain in ALLOW_DOMAINS.split(',') if domain.strip()]`
 * with `ALLOW_DOMAINS = os.getenv('ALLOW_DOMAINS', '')`.
 */
module Origins {
  import opened Wrappers
  import opened Text

  /** Each piece stripped of surrounding whitespace. */
  function StripEach(pieces: seq<string>): (r: seq<string>)
    ensures |r| == |pieces|
    ensures forall k :: 0 <= k < |r| ==> r[k] == Strip(pieces[k])
    decreases |pieces|
  {
    if pieces == [] then [] else [Strip(pieces[0])] + StripEach(pieces[1..])
  }

  /** The non-empty strings, in order. */
  function NonBlank(s: seq<string>): (r: seq<string>)
    ensures |r| <= |s|
    ensures forall x :: x in r ==> x in s && x != []
  {
    if s == [] then []
    else (if s[0] != [] then [s[0]] else []) + NonBlank(s[1..])
  }

  /** The origin list built from a comma-separated setting. */
  function Origins(allowDomains: string): (r: seq<string>)
    ensures forall o :: o in r ==> o != [] && IsStripped(o)
    ensures |r| <= Count(allowDomains, ',') + 1
  {
    SplitCount(allowDomains, ',');
    NonBlank(StripEach(Split(allowDomains, ',')))
  }

  /** The origin list for the environment variable, unset meaning the empty string. */
  function AllowedOrigins(env: Option<string>): (r: seq<string>)
    ensures env.None? ==> r == []
    ensures forall o :: o in r ==> o != [] && IsStripped(o)
  {
    var setting := env.GetOr("");
    var r := Origins(setting);
    OriginsOfEmpty();
    r
  }

  /** An empty setting gives no origins. */
  lemma OriginsOfEmpty()
    ensures Origins("") == []
  {
    assert Split("", ',') == [""];
    assert Strip("") == "";
    assert StripEach([""]) == [""];
  }

  lemma {:induction false} StripEachAppend(a: seq<string>, b: seq<string>)
    ensures StripEach(a + b) == StripEach(a) + StripEach(b)
    decreases |a|
  {
    if a == [] {
      assert a + b == b;
    } else {
      assert (a + b)[0] == a[0];
      assert (a + b)[1..] == a[1..] + b;
      StripEachAppend(a[1..], b);
    }
  }

  lemma {:induction false} NonBlankAppend(a: seq<string>, b: seq<string>)
    ensures NonBlank(a + b) == NonBlank(a) + NonBlank(b)
    decreases |a|
  {
    if a == [] {
      assert a + b == b;
    } else {
      assert (a + b)[0] == a[0];
      assert (a + b)[1..] == a[1..] + b;
      NonBlankAppend(a[1..], b);
    }
  }

  /**
   * Order is kept: the origins of two comma-joined settings are the origins
   * of the first followed by those of the second.
   */
  lemma OriginsJoin(a: string, b: string)
    ensures Origins(a + "," + b) == Origins(a) + Origins(b)
  {
    SplitAround(a, b, ',');
    var pa, pb := Split(a, ','), Split(b, ',');
    StripEachAppend(pa, pb);
    NonBlankAppend(StripEach(pa), StripEach(pb));
  }

  /** A single non-blank domain yields exactly its stripped form. */
  lemma OriginsSingle(d: string)
    requires ',' !in d && Strip(d) != ""
    ensures Origins(d) == [Strip(d)]
  {
    SplitWithoutSep(d, ',');
  }

  /** Every character is a comma or whitespace. */
  predicate CommasAndSpace(s: string) {
    forall k :: 0 <= k < |s| ==> s[k] == ',' || IsSpace(s[k])
  }

  /** A setting made only of commas and whitespace yields no origin. */
  lemma {:induction false} OriginsBlank(s: string)
    requires CommasAndSpace(s)
    ensures Origins(s) == []
    decreases |s|
  {
    var i := IndexOf(s, ',');
    IndexOfFirst(s, ',');
    if i == |s| {
      OriginsSpace(s);
    } else {
      var a, b := s[..i], s[i + 1..];
      assert Split(s, ',') == [a] + Split(b, ',');
      assert ',' !in a && forall k :: 0 <= k < |a| ==> IsSpace(a[k]) by {
        forall k | 0 <= k < |a| ensures a[k] != ',' && IsSpace(a[k]) {
          assert a[k] == s[k];
        }
      }
      OriginsSpace(a);
      SplitWithoutSep(a, ',');
      assert CommasAndSpace(b) by {
        forall k | 0 <= k < |b| ensures b[k] == ',' || IsSpace(b[k]) {
          assert b[k] == s[i + 1 + k];
        }
      }
      OriginsBlank(b);
      StripEachAppend([a], Split(b, ','));
      NonBlankAppend(StripEach([a]), StripEach(Split(b, ',')));
    }
  }

  /** Whitespace without a comma yields no origin. */
  lemma OriginsSpace(s: string)
    requires ',' !in s && forall k :: 0 <= k < |s| ==> IsSpace(s[k])
    ensures Origins(s) == []
  {
    SplitWithoutSep(s, ',');
    StripBlank(s);
    assert StripEach([s]) == [Strip(s)] by { assert [s][1..] == []; }
    assert NonBlank([Strip(s)]) == [] by { assert [Strip(s)][1..] == []; }
  }

  /** Whitespace strips to nothing. */
  lemma StripBlank(s: string)
    requires AllSpace(s)
    ensures Strip(s) == []
  {
  }
}
