/** The metric-list step of the eval-metrics mode (CreateMetrics in
    catboost/app/mode_eval_metrics.cpp): the comma-separated description is
    split, empty tokens are dropped, and an empty list is a configuration
    error. Building the metric objects from the tokens is an abstract
    collaborator. */
module MetricsDescription {

  /** Fatal configuration errors of the eval-metrics mode. */
  datatype ConfigError =
    | NoMetricInDescription(description: string)
    | CatFeaturesWithoutColumnDescription
    | UnknownMetric(token: string)

  datatype Result<+T> = Ok(value: T) | Err(error: ConfigError)

  /** A metric as the orchestration sees it: its description and whether it is additive. */
  datatype Metric = Metric(description: string, isAdditive: bool)

  const MetricSeparator: char := ','

  /** Concatenation of tokens, without separators. */
  function Concat(tokens: seq<string>): string
    decreases |tokens|
  {
    if |tokens| == 0 then [] else tokens[0] + Concat(tokens[1..])
  }

  /** The string with every occurrence of `sep` removed. */
  function Without(s: string, sep: char): string
    decreases |s|
  {
    if |s| == 0 then [] else (if s[0] == sep then [] else [s[0]]) + Without(s[1..], sep)
  }

  /** Tokens joined with one separator between neighbours. */
  function Join(tokens: seq<string>, sep: char): string
    decreases |tokens|
  {
    if |tokens| == 0 then []
    else if |tokens| == 1 then tokens[0]
    else tokens[0] + [sep] + Join(tokens[1..], sep)
  }

  /** Every token is non-empty and holds no separator. */
  predicate WellFormedTokens(tokens: seq<string>, sep: char) {
    forall i :: 0 <= i < |tokens| ==> |tokens[i]| > 0 && sep !in tokens[i]
  }

  /** Scans `s`, `current` being the token read so far. */
  function SplitFrom(s: string, sep: char, current: string): (r: seq<string>)
    requires sep !in current
    ensures WellFormedTokens(r, sep)
    ensures Concat(r) == current + Without(s, sep)
    decreases |s|
  {
    if |s| == 0 then
      (if |current| == 0 then [] else [current])
    else if s[0] == sep then
      var closed := if |current| == 0 then [] else [current];
      var rest := SplitFrom(s[1..], sep, []);
      ConcatAppend(closed, rest);
      closed + rest
    else
      assert current + Without(s, sep) == (current + [s[0]]) + Without(s[1..], sep);
      SplitFrom(s[1..], sep, current + [s[0]])
  }

  /** StringSplitter(s).Split(sep).SkipEmpty(): the non-empty pieces between separators. */
  function SplitSkipEmpty(s: string, sep: char): (r: seq<string>)
    ensures WellFormedTokens(r, sep)
    ensures Concat(r) == Without(s, sep)
  {
    SplitFrom(s, sep, [])
  }

  lemma {:induction false} ConcatAppend(a: seq<string>, b: seq<string>)
    ensures Concat(a + b) == Concat(a) + Concat(b)
    decreases |a|
  {
    if |a| == 0 {
      assert a + b == b;
    } else {
      assert (a + b)[0] == a[0];
      assert (a + b)[1..] == a[1..] + b;
      ConcatAppend(a[1..], b);
    }
  }

  lemma {:induction false} WithoutEmpty(s: string, sep: char)
    ensures Without(s, sep) == [] <==> forall i :: 0 <= i < |s| ==> s[i] == sep
    decreases |s|
  {
    if |s| > 0 {
      WithoutEmpty(s[1..], sep);
      assert forall i :: 1 <= i < |s| ==> s[i] == s[1..][i - 1];
    }
  }

  lemma {:induction false} ConcatEmpty(tokens: seq<string>, sep: char)
    requires WellFormedTokens(tokens, sep)
    ensures Concat(tokens) == [] <==> tokens == []
  {
    if |tokens| > 0 {
      assert |Concat(tokens)| >= |tokens[0]| > 0;
    }
  }

  /** The split is empty exactly when the description is empty or consists only of separators. */
  lemma SplitEmptyIff(s: string, sep: char)
    ensures SplitSkipEmpty(s, sep) == [] <==> forall i :: 0 <= i < |s| ==> s[i] == sep
  {
    WithoutEmpty(s, sep);
    ConcatEmpty(SplitSkipEmpty(s, sep), sep);
  }

  /** Reading a separator-free piece only extends the current token. */
  lemma {:induction false} SplitFromToken(t: string, rest: string, sep: char, current: string)
    requires sep !in current && sep !in t
    ensures SplitFrom(t + rest, sep, current) == SplitFrom(rest, sep, current + t)
    decreases |t|
  {
    if |t| == 0 {
      assert t + rest == rest;
      assert current + t == current;
    } else {
      assert (t + rest)[0] == t[0];
      assert (t + rest)[1..] == t[1..] + rest;
      assert current + [t[0]] + t[1..] == current + t;
      SplitFromToken(t[1..], rest, sep, current + [t[0]]);
    }
  }

  /** Splitting well-formed tokens joined by the separator gives back the tokens. */
  lemma {:induction false} SplitJoin(tokens: seq<string>, sep: char)
    requires WellFormedTokens(tokens, sep)
    ensures SplitSkipEmpty(Join(tokens, sep), sep) == tokens
    decreases |tokens|
  {
    if |tokens| == 1 {
      SplitFromToken(tokens[0], [], sep, []);
      assert tokens[0] + [] == tokens[0];
      assert [] + tokens[0] == tokens[0];
    } else if |tokens| > 1 {
      var t := tokens[0];
      var rest := [sep] + Join(tokens[1..], sep);
      assert Join(tokens, sep) == t + rest;
      SplitFromToken(t, rest, sep, []);
      assert [] + t == t;
      assert rest[0] == sep && rest[1..] == Join(tokens[1..], sep);
      SplitJoin(tokens[1..], sep);
      assert [t] + tokens[1..] == tokens;
    }
  }

  /** "Logloss,AUC" gives the two tokens "Logloss" and "AUC". */
  lemma SplitTwoMetrics()
    ensures SplitSkipEmpty("Logloss,AUC", MetricSeparator) == ["Logloss", "AUC"]
  {
    assert Join(["AUC"], MetricSeparator) == "AUC";
    assert Join(["Logloss", "AUC"], MetricSeparator) == "Logloss" + [MetricSeparator] + "AUC";
    assert "Logloss" + [MetricSeparator] + "AUC" == "Logloss,AUC";
    SplitJoin(["Logloss", "AUC"], MetricSeparator);
  }

  /** An empty token between two separators is skipped: a doubled separator
      splits exactly like a single one, wherever it occurs. */
  lemma {:induction false} SplitFromDoubledSeparator(x: string, y: string, sep: char, current: string)
    requires sep !in current
    ensures SplitFrom(x + [sep, sep] + y, sep, current) == SplitFrom(x + [sep] + y, sep, current)
    decreases |x|
  {
    var closed: seq<string> := if |current| == 0 then [] else [current];
    if |x| == 0 {
      var doubled := x + [sep, sep] + y;
      var single := x + [sep] + y;
      assert doubled[0] == sep && doubled[1..] == [sep] + y;
      assert single[0] == sep && single[1..] == y;
      assert ([sep] + y)[0] == sep && ([sep] + y)[1..] == y;
      assert SplitFrom([sep] + y, sep, []) == [] + SplitFrom(y, sep, []);
      assert [] + SplitFrom(y, sep, []) == SplitFrom(y, sep, []);
    } else {
      var doubled := x + [sep, sep] + y;
      var single := x + [sep] + y;
      assert doubled[0] == x[0] && doubled[1..] == x[1..] + [sep, sep] + y;
      assert single[0] == x[0] && single[1..] == x[1..] + [sep] + y;
      if x[0] == sep {
        SplitFromDoubledSeparator(x[1..], y, sep, []);
      } else {
        SplitFromDoubledSeparator(x[1..], y, sep, current + [x[0]]);
      }
    }
  }

  /** A doubled separator is skipped: "Logloss,,AUC" gives the same two tokens. */
  lemma SplitSkipsDoubledSeparator()
    ensures SplitSkipEmpty("Logloss,,AUC", MetricSeparator) == ["Logloss", "AUC"]
  {
    var sep := MetricSeparator;
    assert "Logloss,,AUC" == "Logloss" + [sep, sep] + "AUC";
    assert "Logloss,AUC" == "Logloss" + [sep] + "AUC";
    SplitFromDoubledSeparator("Logloss", "AUC", sep, []);
    SplitTwoMetrics();
  }

  /** A leading separator closes no token, so it is skipped. */
  lemma SplitSkipsLeadingSeparator(s: string, sep: char)
    ensures SplitSkipEmpty([sep] + s, sep) == SplitSkipEmpty(s, sep)
  {
    assert ([sep] + s)[0] == sep && ([sep] + s)[1..] == s;
    assert SplitFrom([sep] + s, sep, []) == [] + SplitFrom(s, sep, []);
    assert [] + SplitFrom(s, sep, []) == SplitFrom(s, sep, []);
  }

  /** A trailing separator only closes the token being read, as the end of
      the input would. */
  lemma {:induction false} SplitFromTrailingSeparator(s: string, sep: char, current: string)
    requires sep !in current
    ensures SplitFrom(s + [sep], sep, current) == SplitFrom(s, sep, current)
    decreases |s|
  {
    if |s| == 0 {
      var closed: seq<string> := if |current| == 0 then [] else [current];
      assert s + [sep] == [sep] && [sep][0] == sep && [sep][1..] == [];
      assert SplitFrom([sep], sep, current) == closed + SplitFrom([], sep, []);
      assert closed + [] == closed;
    } else {
      assert (s + [sep])[0] == s[0] && (s + [sep])[1..] == s[1..] + [sep];
      if s[0] == sep {
        SplitFromTrailingSeparator(s[1..], sep, []);
      } else {
        SplitFromTrailingSeparator(s[1..], sep, current + [s[0]]);
      }
    }
  }

  /** A trailing separator is skipped. */
  lemma SplitSkipsTrailingSeparator(s: string, sep: char)
    ensures SplitSkipEmpty(s + [sep], sep) == SplitSkipEmpty(s, sep)
  {
    SplitFromTrailingSeparator(s, sep, []);
  }

  /** What CreateMetricsFromDescription makes of the tokens: the metrics, or
      the first identifier it does not recognise. */
  datatype Created = Created(metrics: seq<Metric>) | Unrecognized(token: string)

  /** CreateMetrics: split, refuse an empty list, then hand the tokens to
      CreateMetricsFromDescription (an abstract collaborator). */
  function CreateMetrics(metricsDescription: string, approxDim: int,
                         createMetricsFromDescription: (seq<string>, int) -> Created)
    : (r: Result<seq<Metric>>)
    ensures (forall i :: 0 <= i < |metricsDescription| ==> metricsDescription[i] == MetricSeparator)
            <==> r == Err(NoMetricInDescription(metricsDescription))
    ensures r.Ok? ==>
            createMetricsFromDescription(SplitSkipEmpty(metricsDescription, MetricSeparator), approxDim)
            == Created(r.value)
    // a description with a metric in it gives exactly what metric construction makes of its tokens
    ensures (exists i :: 0 <= i < |metricsDescription| && metricsDescription[i] != MetricSeparator) ==>
            match createMetricsFromDescription(SplitSkipEmpty(metricsDescription, MetricSeparator), approxDim)
            case Created(metrics) => r == Ok(metrics)
            case Unrecognized(token) => r == Err(UnknownMetric(token))
  {
    var tokens := SplitSkipEmpty(metricsDescription, MetricSeparator);
    SplitEmptyIff(metricsDescription, MetricSeparator);
    if tokens == [] then Err(NoMetricInDescription(metricsDescription))
    else
      match createMetricsFromDescription(tokens, approxDim)
      case Created(metrics) => Ok(metrics)
      case Unrecognized(token) => Err(UnknownMetric(token))
  }
}
