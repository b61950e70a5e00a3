/**
 * The Diavgeia open-data search query: the `q` expression that selects decisions by
 * type and issue date, and the URL of one page of results.  `api/src/utils.ts` and
 * `src/utils.ts` hold identical copies of these encoders.
 */
module DiavgeiaQueries {
  import opened Strs

  /** `DiavgeiaQuery`: decision type ids, and the issue-date range as two `DT(...)` bounds. */
  datatype DiavgeiaQuery = DiavgeiaQuery(decisionTypeUid: seq<string>, issueDate: (string, string))

  /** The search address, host, path and query key. */
  const SearchBase := "https://diavgeia.gov.gr/" + "opendata/search/" + "advanced.json?q="
  const UidsPrefix := "decisionTypeUid:["
  const DatesPrefix := "] AND issueDate:["

  /** The bound `DT(<date>T00:00:00)` both entry points build from a YYYY-MM-DD date. */
  function IssueDateBound(date: string): string
  {
    "DT(" + date + "T00:00:00)"
  }

  function Quote(x: string): string
  {
    "\"" + x + "\""
  }

  function Quoted(xs: seq<string>): (r: seq<string>)
    ensures |r| == |xs| && forall i :: 0 <= i < |xs| ==> r[i] == Quote(xs[i])
  {
    if |xs| == 0 then [] else [Quote(xs[0])] + Quoted(xs[1..])
  }

  /** `stringEncodeDiavgeiaQuery`. */
  function StringEncode(q: DiavgeiaQuery): string
  {
    UidsPrefix + Join(Quoted(q.decisionTypeUid), ", ") + DatesPrefix
      + Join([q.issueDate.0, q.issueDate.1], " TO ") + "]"
  }

  /** `diavgeiaSearchQuery`. */
  function SearchUrl(q: DiavgeiaQuery, page: int, size: int): string
  {
    SearchBase + StringEncode(q) + "&page=" + IntToString(page) + "&size=" + IntToString(size)
  }

  // ---------------------------------------------------------------------------------
  // Reading the type ids back: they are the odd pieces between double quotes.

  /** The pieces of a split at odd positions. */
  function OddPieces(ps: seq<string>): seq<string>
  {
    if |ps| < 2 then [] else [ps[1]] + OddPieces(ps[2..])
  }

  /** The ids with ", " between them: the pieces between the quotes of an encoded list. */
  function Interleave(xs: seq<string>): seq<string>
    requires |xs| > 0
  {
    if |xs| == 1 then xs else [xs[0], ", "] + Interleave(xs[1..])
  }

  /** The type ids encoded in a query's `q` expression. */
  function DecodeUids(encoded: string): seq<string>
  {
    OddPieces(Split(encoded, "\""))
  }

  lemma JoinCons(a: string, t: seq<string>, sep: string)
    requires |t| > 0
    ensures Join([a] + t, sep) == a + sep + Join(t, sep)
  {
    assert ([a] + t)[1..] == t;
  }

  lemma JoinInterleaveOne(p: string, x: string, s: string)
    ensures Join([p] + Interleave([x]) + [s], "\"") == p + Join(Quoted([x]), ", ") + s
  {
    var q := "\"";
    assert [p] + Interleave([x]) + [s] == [p, x, s];
    assert Join([p, x, s], q) == p + q + (x + q + s) by {
      JoinCons(p, [x, s], q);
      JoinCons(x, [s], q);
    }
    assert Join(Quoted([x]), ", ") == q + x + q;
  }

  lemma InterleaveCons(x: string, rest: seq<string>)
    requires |rest| > 0
    ensures Interleave([x] + rest) == [x, ", "] + Interleave(rest)
  {
    var xs := [x] + rest;
    assert xs[0] == x && xs[1..] == rest;
  }

  lemma Regroup(p: string, x: string, i: seq<string>, s: string)
    ensures [p] + ([x, ", "] + i) + [s] == [p] + ([x] + ([", "] + i + [s]))
  {
  }

  lemma QuotedCons(x: string, rest: seq<string>)
    requires |rest| > 0
    ensures Join(Quoted([x] + rest), ", ") == Quote(x) + ", " + Join(Quoted(rest), ", ")
  {
    assert ([x] + rest)[1..] == rest;
    assert Quoted([x] + rest) == [Quote(x)] + Quoted(rest);
    JoinCons(Quote(x), Quoted(rest), ", ");
  }

  lemma JoinInterleaveCons(p: string, x: string, rest: seq<string>, s: string)
    requires |rest| > 0
    ensures Join([p] + Interleave([x] + rest) + [s], "\"")
            == p + "\"" + (x + "\"" + Join([", "] + Interleave(rest) + [s], "\""))
  {
    var tail := [", "] + Interleave(rest) + [s];
    InterleaveCons(x, rest);
    Regroup(p, x, Interleave(rest), s);
    JoinCons(x, tail, "\"");
    JoinCons(p, [x] + tail, "\"");
  }

  lemma JoinInterleaveStep(p: string, x: string, rest: seq<string>, s: string)
    requires |rest| > 0
    requires Join([", "] + Interleave(rest) + [s], "\"") == ", " + Join(Quoted(rest), ", ") + s
    ensures Join([p] + Interleave([x] + rest) + [s], "\"") == p + Join(Quoted([x] + rest), ", ") + s
  {
    JoinInterleaveCons(p, x, rest, s);
    QuotedCons(x, rest);
    Regroup5(p, "\"", x, ", ", Join(Quoted(rest), ", "), s);
  }

  lemma Regroup5(p: string, q: string, x: string, c: string, j: string, s: string)
    ensures p + q + (x + q + (c + j + s)) == p + (q + x + q + c + j) + s
  {
  }

  lemma {:induction false} JoinInterleave(p: string, xs: seq<string>, s: string)
    requires |xs| > 0
    ensures Join([p] + Interleave(xs) + [s], "\"") == p + Join(Quoted(xs), ", ") + s
    decreases |xs|
  {
    if |xs| == 1 {
      assert xs == [xs[0]];
      JoinInterleaveOne(p, xs[0], s);
    } else {
      JoinInterleave(", ", xs[1..], s);
      assert xs == [xs[0]] + xs[1..];
      JoinInterleaveStep(p, xs[0], xs[1..], s);
    }
  }

  lemma {:induction false} OddInterleave(p: string, xs: seq<string>, s: string)
    requires |xs| > 0
    ensures OddPieces([p] + Interleave(xs) + [s]) == xs
    decreases |xs|
  {
    if |xs| == 1 {
      assert ([p] + Interleave(xs) + [s])[2..] == [s];
    } else {
      var rest := xs[1..];
      assert ([p] + Interleave(xs) + [s])[1] == xs[0];
      assert ([p] + Interleave(xs) + [s])[2..] == [", "] + Interleave(rest) + [s];
      OddInterleave(", ", rest, s);
      assert xs == [xs[0]] + rest;
    }
  }

  lemma {:induction false} InterleavePlain(xs: seq<string>, c: char)
    requires |xs| > 0 && c != ',' && c != ' '
    requires forall i :: 0 <= i < |xs| ==> c !in xs[i]
    ensures forall i :: 0 <= i < |Interleave(xs)| ==> c !in Interleave(xs)[i]
    decreases |xs|
  {
    if |xs| > 1 {
      InterleavePlain(xs[1..], c);
    }
  }

  lemma {:induction false} JoinAvoids(xs: seq<string>, sep: string, c: char)
    requires c !in sep && forall i :: 0 <= i < |xs| ==> c !in xs[i]
    ensures c !in Join(xs, sep)
  {
    if |xs| > 1 {
      JoinAvoids(xs[1..], sep, c);
    }
  }

  /** The type ids can be read back from the encoded query when none contains a double
      quote and the dates contain none either. */
  lemma UidsRoundTrip(q: DiavgeiaQuery)
    requires forall i :: 0 <= i < |q.decisionTypeUid| ==> '"' !in q.decisionTypeUid[i]
    requires '"' !in q.issueDate.0 && '"' !in q.issueDate.1
    ensures DecodeUids(StringEncode(q)) == q.decisionTypeUid
  {
    var xs := q.decisionTypeUid;
    var dates := Join([q.issueDate.0, q.issueDate.1], " TO ");
    JoinAvoids([q.issueDate.0, q.issueDate.1], " TO ", '"');
    var s := DatesPrefix + dates + "]";
    assert '"' !in s;
    if |xs| == 0 {
      assert StringEncode(q) == UidsPrefix + s;
      SplitJoin([UidsPrefix + s], '"');
    } else {
      var pieces := [UidsPrefix] + Interleave(xs) + [s];
      JoinInterleave(UidsPrefix, xs, s);
      assert StringEncode(q) == Join(pieces, "\"");
      InterleavePlain(xs, '"');
      forall i | 0 <= i < |pieces| ensures '"' !in pieces[i] {
        if 0 < i < |pieces| - 1 {
          assert pieces[i] == Interleave(xs)[i - 1];
        }
      }
      SplitJoin(pieces, '"');
      OddInterleave(UidsPrefix, xs, s);
    }
  }

  /** A character absent from the ids, the dates and the fixed text is absent from the
      encoded query. */
  lemma EncodeAvoids(q: DiavgeiaQuery, c: char)
    requires c != '"' && c != ',' && c != ' ' && c !in UidsPrefix && c !in DatesPrefix && c != ']'
    requires c !in " TO "
    requires forall i :: 0 <= i < |q.decisionTypeUid| ==> c !in q.decisionTypeUid[i]
    requires c !in q.issueDate.0 && c !in q.issueDate.1
    ensures c !in StringEncode(q)
  {
    var quoted := Quoted(q.decisionTypeUid);
    forall i | 0 <= i < |quoted| ensures c !in quoted[i] {
      assert quoted[i] == "\"" + q.decisionTypeUid[i] + "\"";
    }
    JoinAvoids(quoted, ", ", c);
    JoinAvoids([q.issueDate.0, q.issueDate.1], " TO ", c);
  }

  lemma JoinThree(a: string, b: string, c: string, sep: string)
    ensures Join([a, b, c], sep) == a + sep + (b + sep + c)
  {
    JoinCons(a, [b, c], sep);
    JoinCons(b, [c], sep);
  }

  lemma BaseAvoidsAmpersand()
    ensures '&' !in SearchBase
  {
    HostAvoidsAmpersand();
    PathAvoidsAmpersand();
    QueryAvoidsAmpersand();
  }

  lemma HostAvoidsAmpersand()
    ensures '&' !in "https://diavgeia.gov.gr/"
  {
  }

  lemma PathAvoidsAmpersand()
    ensures '&' !in "opendata/search/"
  {
  }

  lemma QueryAvoidsAmpersand()
    ensures '&' !in "advanced.json?q="
  {
  }

  lemma RegroupUrl(f: string, amp: string, a: string, n: string, b: string, m: string)
    ensures f + amp + (a + n + amp + (b + m)) == f + (amp + a) + n + (amp + b) + m
  {
  }

  lemma UrlAsJoin(q: DiavgeiaQuery, page: int, size: int)
    ensures Join([SearchBase + StringEncode(q), "page=" + IntToString(page), "size=" + IntToString(size)], "&")
            == SearchUrl(q, page, size)
  {
    var first, n, m := SearchBase + StringEncode(q), IntToString(page), IntToString(size);
    JoinThree(first, "page=" + n, "size=" + m, "&");
    RegroupUrl(first, "&", "page=", n, "size=", m);
    assert "&page=" == "&" + "page=" && "&size=" == "&" + "size=";
  }

  lemma NumberParamAvoids(key: string, n: int)
    requires '&' !in key
    ensures '&' !in key + IntToString(n)
  {
    DigitsOnly(n);
  }

  /** The URL's parameters after `q` are exactly the page and the size, written in decimal,
      when no id or date contains '&'. */
  lemma SearchUrlFields(q: DiavgeiaQuery, page: int, size: int)
    requires forall i :: 0 <= i < |q.decisionTypeUid| ==> '&' !in q.decisionTypeUid[i]
    requires '&' !in q.issueDate.0 && '&' !in q.issueDate.1
    ensures Split(SearchUrl(q, page, size), "&")
            == [SearchBase + StringEncode(q), "page=" + IntToString(page), "size=" + IntToString(size)]
  {
    EncodeAvoids(q, '&');
    BaseAvoidsAmpersand();
    NumberParamAvoids("page=", page);
    NumberParamAvoids("size=", size);
    UrlAsJoin(q, page, size);
    SplitJoin([SearchBase + StringEncode(q), "page=" + IntToString(page), "size=" + IntToString(size)], '&');
  }

  lemma DigitsOnly(n: int)
    ensures forall i :: 0 <= i < |IntToString(n)| ==> IntToString(n)[i] == '-' || IsDigit(IntToString(n)[i])
  {
    var d := NatToString(if n < 0 then -n else n);
    if n < 0 {
      assert IntToString(n) == "-" + d;
      forall i | 0 <= i < |IntToString(n)|
        ensures IntToString(n)[i] == '-' || IsDigit(IntToString(n)[i])
      {
        if i > 0 { assert IntToString(n)[i] == d[i - 1]; }
      }
    }
  }
}
