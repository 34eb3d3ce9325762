/** The text of `best.log` written by `save_best_log`, and a reader for it. */
module BestLog {
  import opened Wrappers
  import opened Text

  /** Python's `str` on floats never yields a comma or a newline; `show` stands for it. */
  ghost predicate Plain(show: real -> string) {
    forall x :: ',' !in show(x) && '\n' !in show(x)
  }

  /** The truth value of `if beta:` for a base beta that is `None` or a float. */
  predicate Truthy(beta: Option<real>) {
    beta.Some? && beta.value != 0.0
  }

  function Shown(show: real -> string, ws: seq<real>): (r: seq<string>)
    ensures |r| == |ws|
    ensures forall i :: 0 <= i < |ws| ==> r[i] == show(ws[i])
  {
    seq(|ws|, (i: int) requires 0 <= i < |ws| => show(ws[i]))
  }

  /** `",".join(list(map(str, ws)))`. */
  function WeightsString(show: real -> string, ws: seq<real>): string {
    Join(Shown(show, ws), ',')
  }

  /** What `save_best_log(alpha, weights, beta, weights_beta)` writes: `f"{alpha}\n\n{weights}"`,
      then `f"\n{beta}\n\n{weights_beta}"` only when `beta` is truthy. */
  function BestLogText(show: real -> string, alpha: real, weights: string,
                       beta: Option<real>, weightsBeta: string): (r: string)
    ensures |r| >= |show(alpha)| + 2 + |weights|
    ensures r[..|show(alpha)| + 2 + |weights|] == show(alpha) + "\n\n" + weights
    ensures |r| > |show(alpha)| + 2 + |weights| <==> Truthy(beta)
  {
    show(alpha) + "\n\n" + weights +
      (if Truthy(beta) then "\n" + show(beta.value) + "\n\n" + weightsBeta else "")
  }

  datatype BetaSection = BetaSection(base: string, weights: seq<string>)
  datatype Record = Record(base: string, weights: seq<string>, beta: Option<BetaSection>)

  /** Reads a `best.log` text back into its fields: three lines, or six with a beta section,
      the second and fifth of them blank, weights separated by commas. */
  function ParseBestLog(text: string): Option<Record> {
    var lines := Split(text, '\n');
    if |lines| == 3 && lines[1] == "" then
      Some(Record(lines[0], Split(lines[2], ','), None))
    else if |lines| == 6 && lines[1] == "" && lines[4] == "" then
      Some(Record(lines[0], Split(lines[2], ','), Some(BetaSection(lines[3], Split(lines[5], ',')))))
    else None
  }

  /** `a + "\n\n" + w` is the three lines `a`, blank, `w`. */
  lemma SplitBlankLine(a: string, w: string)
    requires '\n' !in a && '\n' !in w
    ensures Split(a + "\n\n" + w, '\n') == [a, "", w]
  {
    var nl := '\n';
    SplitWithoutSeparator(a, nl);
    SplitWithoutSeparator("", nl);
    SplitWithoutSeparator(w, nl);
    SplitAround("", w, nl);
    assert "" + [nl] + w == [nl] + w;
    SplitAround(a, [nl] + w, nl);
    assert a + [nl] + ([nl] + w) == a + "\n\n" + w;
  }

  /** The lines of a `best.log` text, given that none of its fields holds a newline. */
  lemma BestLogLines(show: real -> string, alpha: real, weights: string, beta: Option<real>, weightsBeta: string)
    requires Plain(show)
    requires '\n' !in weights && '\n' !in weightsBeta
    ensures Split(BestLogText(show, alpha, weights, beta, weightsBeta), '\n') ==
      [show(alpha), "", weights] +
      (if Truthy(beta) then [show(beta.value), "", weightsBeta] else [])
  {
    var x := show(alpha) + "\n\n" + weights;
    SplitBlankLine(show(alpha), weights);
    if Truthy(beta) {
      var y := show(beta.value) + "\n\n" + weightsBeta;
      SplitBlankLine(show(beta.value), weightsBeta);
      SplitAround(x, y, '\n');
      assert BestLogText(show, alpha, weights, beta, weightsBeta) == x + ['\n'] + y;
    } else {
      assert BestLogText(show, alpha, weights, beta, weightsBeta) == x;
    }
  }

  /** The text is exactly its lines joined by newlines: `alpha`, blank, `weights`, and then
      `beta`, blank, `weights_beta` only when `beta` is truthy. */
  lemma BestLogJoinsLines(show: real -> string, alpha: real, weights: string, beta: Option<real>, weightsBeta: string)
    requires Plain(show)
    requires '\n' !in weights && '\n' !in weightsBeta
    ensures BestLogText(show, alpha, weights, beta, weightsBeta) ==
      Join([show(alpha), "", weights] +
           (if Truthy(beta) then [show(beta.value), "", weightsBeta] else []), '\n')
  {
    BestLogLines(show, alpha, weights, beta, weightsBeta);
    JoinSplit(BestLogText(show, alpha, weights, beta, weightsBeta), '\n');
  }

  /** Reading back the text written for weight vectors recovers every rendered value, and finds a
      beta section exactly when the base beta was truthy. */
  lemma ParseBestLogText(show: real -> string, alpha: real, ws: seq<real>, beta: Option<real>, wsBeta: seq<real>)
    requires Plain(show)
    requires |ws| >= 1 && |wsBeta| >= 1
    ensures ParseBestLog(BestLogText(show, alpha, WeightsString(show, ws), beta, WeightsString(show, wsBeta))) ==
      Some(Record(show(alpha), Shown(show, ws),
                  if Truthy(beta) then Some(BetaSection(show(beta.value), Shown(show, wsBeta))) else None))
  {
    PlainString(show, ws);
    PlainString(show, wsBeta);
    BestLogLines(show, alpha, WeightsString(show, ws), beta, WeightsString(show, wsBeta));
    SplitJoin(Shown(show, ws), ',');
    SplitJoin(Shown(show, wsBeta), ',');
  }

  lemma PlainString(show: real -> string, ws: seq<real>)
    requires Plain(show)
    ensures '\n' !in WeightsString(show, ws)
    ensures forall i :: 0 <= i < |Shown(show, ws)| ==> ',' !in Shown(show, ws)[i]
  {
    forall i | 0 <= i < |ws| ensures ',' !in Shown(show, ws)[i] && '\n' !in Shown(show, ws)[i] {
      var x := ws[i];
      assert ',' !in show(x) && '\n' !in show(x);
      assert Shown(show, ws)[i] == show(x);
    }
    JoinPlain(Shown(show, ws));
  }

  lemma {:induction false} JoinPlain(parts: seq<string>)
    requires forall i :: 0 <= i < |parts| ==> '\n' !in parts[i]
    ensures '\n' !in Join(parts, ',')
    decreases |parts|
  {
    if |parts| > 1 {
      JoinPlain(parts[1..]);
    }
  }

  /** Two texts written for different weights differ, unless the beta section was dropped:
      `best.log` identifies the rendered weights it was written from. */
  lemma BestLogDeterminesWeights(show: real -> string, alpha1: real, ws1: seq<real>, beta1: Option<real>, wsBeta1: seq<real>,
                                 alpha2: real, ws2: seq<real>, beta2: Option<real>, wsBeta2: seq<real>)
    requires Plain(show)
    requires |ws1| >= 1 && |wsBeta1| >= 1 && |ws2| >= 1 && |wsBeta2| >= 1
    requires BestLogText(show, alpha1, WeightsString(show, ws1), beta1, WeightsString(show, wsBeta1)) ==
             BestLogText(show, alpha2, WeightsString(show, ws2), beta2, WeightsString(show, wsBeta2))
    ensures show(alpha1) == show(alpha2) && Shown(show, ws1) == Shown(show, ws2)
    ensures Truthy(beta1) == Truthy(beta2)
    ensures Truthy(beta1) ==> show(beta1.value) == show(beta2.value) && Shown(show, wsBeta1) == Shown(show, wsBeta2)
  {
    ParseBestLogText(show, alpha1, ws1, beta1, wsBeta1);
    ParseBestLogText(show, alpha2, ws2, beta2, wsBeta2);
  }

  /** A base beta of `0.0` or `None` drops the beta weights from `best.log` entirely. */
  lemma FalsyBetaDropsSection(show: real -> string, alpha: real, ws: seq<real>, beta: Option<real>, wsBeta: seq<real>)
    requires Plain(show) && |ws| >= 1 && |wsBeta| >= 1
    requires !Truthy(beta)
    ensures BestLogText(show, alpha, WeightsString(show, ws), beta, WeightsString(show, wsBeta)) ==
            show(alpha) + "\n\n" + WeightsString(show, ws)
    ensures ParseBestLog(BestLogText(show, alpha, WeightsString(show, ws), beta, WeightsString(show, wsBeta))) ==
            Some(Record(show(alpha), Shown(show, ws), None))
  {
    ParseBestLogText(show, alpha, ws, beta, wsBeta);
  }
}
