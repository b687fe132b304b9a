/**
 * Locality of the lexer: a call of `next_token` depends only on the text from
 * the cursor up to the character that ends the token. Text before the cursor
 * only shifts positions, and text after that character changes nothing.
 */
module LexerLocality {
  import opened Wrappers
  import opened Tokens
  import opened Lexing

  /** Text in front of the input shifts where a run ends by its length. */
  lemma {:induction false} RunEndShift(pre: seq<char>, rest: seq<char>, p: nat, k: CharClass)
    ensures RunEnd(pre + rest, |pre| + p, k) == |pre| + RunEnd(rest, p, k)
    decreases |rest| - p
  {
    var input := pre + rest;
    if p < |rest| {
      assert input[|pre| + p] == rest[p];
      if InClass(k, rest[p]) {
        RunEndShift(pre, rest, p + 1, k);
      }
    }
  }

  /**
   * The last character of w and the first of post cannot belong to one run of
   * letters or one run of digits.
   */
  predicate Separated(w: string, post: string)
  {
    |w| > 0 && |post| > 0 ==>
      !(IsLetter(w[|w| - 1]) && IsLetter(post[0])) && !(IsDigit(w[|w| - 1]) && IsDigit(post[0]))
  }

  /** Text after the input does not change a run that ends inside the input or that the text cannot continue. */
  lemma {:induction false} RunEndAppend(w: seq<char>, post: seq<char>, p: nat, k: CharClass)
    requires p <= |w|
    requires RunEnd(w, p, k) < |w| || |post| == 0 || !InClass(k, post[0])
    ensures RunEnd(w + post, p, k) == RunEnd(w, p, k)
    decreases |w| - p
  {
    if p == |w| {
      if |post| > 0 {
        assert (w + post)[p] == post[0];
      }
    } else {
      assert (w + post)[p] == w[p];
      if InClass(k, w[p]) {
        RunEndAppend(w, post, p + 1, k);
      }
    }
  }

  /** A run at index t of rest is the run at |pre| + t of pre + rest, with the same text. */
  lemma RunTextShift(pre: seq<char>, rest: seq<char>, t: nat, k: CharClass)
    requires t <= |rest|
    ensures RunEnd(pre + rest, |pre| + t, k) == |pre| + RunEnd(rest, t, k)
    ensures (pre + rest)[|pre| + t..|pre| + RunEnd(rest, t, k)] == rest[t..RunEnd(rest, t, k)]
  {
    var input := pre + rest;
    RunEndShift(pre, rest, t, k);
    var e := RunEnd(rest, t, k);
    assert input[|pre|..] == rest;
    assert input[|pre| + t..|pre| + e] == input[|pre|..][t..e];
  }

  /**
   * A run is determined by its characters: a run of in1 at t1 with the same
   * text as the run of in2 at t2 gives the same token, and stops where its
   * text ends.
   */
  lemma RunSame(in1: seq<char>, t1: nat, in2: seq<char>, t2: nat, k: CharClass)
    requires t1 <= |in1| && t2 <= |in2|
    requires in1[t1..RunEnd(in1, t1, k)] == in2[t2..RunEnd(in2, t2, k)]
    ensures Run(in2, Settle(in2, t2), k).next == Settle(in2, RunEnd(in2, t2, k))
    ensures Run(in1, Settle(in1, t1), k) == Emit(Run(in2, Settle(in2, t2), k).token, Settle(in1, RunEnd(in1, t1, k)))
  {
  }

  /** So the token read there is the same, and the cursor is shifted by |pre|. */
  lemma RunShift(pre: seq<char>, rest: seq<char>, t: nat, k: CharClass)
    requires t <= |rest|
    ensures var o := Run(rest, Settle(rest, t), k);
      Run(pre + rest, Settle(pre + rest, |pre| + t), k) == Emit(o.token, Settle(pre + rest, |pre| + o.next.position))
  {
    RunTextShift(pre, rest, t, k);
    RunMoved(pre + rest, rest, |pre|, t, k);
  }

  /** RunSame, for a run of rest found off places later in input. */
  lemma RunMoved(input: seq<char>, rest: seq<char>, off: nat, t: nat, k: CharClass)
    requires t <= |rest| && off + t <= |input|
    requires RunEnd(input, off + t, k) == off + RunEnd(rest, t, k)
    requires input[off + t..off + RunEnd(rest, t, k)] == rest[t..RunEnd(rest, t, k)]
    ensures var o := Run(rest, Settle(rest, t), k);
      Run(input, Settle(input, off + t), k) == Emit(o.token, Settle(input, off + o.next.position))
  {
    RunSame(input, off + t, rest, t, k);
  }

  /** The same for the `=` and `!` lookahead. */
  lemma LookaheadShift(pre: seq<char>, rest: seq<char>, t: nat, one: KeyWord, two: KeyWord)
    ensures var o := Lookahead(rest, Settle(rest, t), one, two);
      var o' := Lookahead(pre + rest, Settle(pre + rest, |pre| + t), one, two);
      && (o.Panics? <==> o'.Panics?)
      && (o.Emit? ==> o' == Emit(o.token, Settle(pre + rest, |pre| + o.next.position)))
  {
    var input := pre + rest;
    assert CharAt(input, |pre| + t) == CharAt(rest, t);
    if t + 1 < |rest| {
      assert input[|pre| + t + 1] == rest[t + 1];
    }
  }

  /** A cursor on index t of rest classifies as the cursor on |pre| + t of pre + rest. */
  lemma ClassifyShift(pre: seq<char>, rest: seq<char>, t: nat)
    ensures var o := Classify(rest, Settle(rest, t));
      var o' := Classify(pre + rest, Settle(pre + rest, |pre| + t));
      && (o.Panics? <==> o'.Panics?)
      && (o.Emit? ==> o' == Emit(o.token, Settle(pre + rest, |pre| + o.next.position)))
  {
    var input := pre + rest;
    assert CharAt(input, |pre| + t) == CharAt(rest, t);
    var ch := CharAt(rest, t);
    if ch == '=' {
      LookaheadShift(pre, rest, t, ASSIGN, EQ);
    } else if ch == '!' {
      LookaheadShift(pre, rest, t, BANG, NOT_EQ);
    } else if SingleKind(ch).None? && IsLetter(ch) {
      RunShift(pre, rest, t, Letters);
    } else if SingleKind(ch).None? && IsDigit(ch) {
      RunShift(pre, rest, t, Digits);
    }
  }

  /** The cursor at index p of rest behaves like the cursor at |pre| + p of pre + rest. */
  lemma NextShift(pre: seq<char>, rest: seq<char>, p: nat)
    ensures var o := NextSpec(rest, Settle(rest, p));
      var o' := NextSpec(pre + rest, Settle(pre + rest, |pre| + p));
      && (o.Panics? <==> o'.Panics?)
      && (o.Emit? ==> o' == Emit(o.token, Settle(pre + rest, |pre| + o.next.position)))
  {
    RunEndShift(pre, rest, p, Blanks);
    ClassifyShift(pre, rest, RunEnd(rest, p, Blanks));
  }

  /** A run that ends inside w, or that post cannot continue, is the same run in w + post. */
  lemma RunAppend(w: seq<char>, post: seq<char>, t: nat, k: CharClass)
    requires t < |w|
    requires RunEnd(w, t, k) < |w| || |post| == 0 || !InClass(k, post[0])
    ensures var o := Run(w, Settle(w, t), k);
      Run(w + post, Settle(w + post, t), k) == Emit(o.token, Settle(w + post, o.next.position))
  {
    var input := w + post;
    RunEndAppend(w, post, t, k);
    var e := RunEnd(w, t, k);
    assert input[t..e] == w[t..e];
    RunSame(input, t, w, t, k);
  }

  /** A lookahead that does not panic in w reads the same character in w + post. */
  lemma LookaheadAppend(w: seq<char>, post: seq<char>, t: nat, one: KeyWord, two: KeyWord)
    requires t < |w| && Lookahead(w, Settle(w, t), one, two).Emit?
    ensures var o := Lookahead(w, Settle(w, t), one, two);
      Lookahead(w + post, Settle(w + post, t), one, two) == Emit(o.token, Settle(w + post, o.next.position))
  {
    var input := w + post;
    assert input[t] == w[t] && input[t + 1] == w[t + 1];
  }

  /** A token classified from inside w, and not continued by post, is classified the same in w + post. */
  lemma ClassifyAppend(w: seq<char>, post: seq<char>, t: nat)
    requires t < |w| && Classify(w, Settle(w, t)).Emit?
    requires 0 < Classify(w, Settle(w, t)).next.position == |w| ==> Separated(w, post)
    ensures var o := Classify(w, Settle(w, t));
      Classify(w + post, Settle(w + post, t)) == Emit(o.token, Settle(w + post, o.next.position))
  {
    var input := w + post;
    assert input[t] == w[t];
    var ch := w[t];
    if ch == '=' {
      LookaheadAppend(w, post, t, ASSIGN, EQ);
    } else if ch == '!' {
      LookaheadAppend(w, post, t, BANG, NOT_EQ);
    } else if SingleKind(ch).None? && (IsLetter(ch) || IsDigit(ch)) {
      var k := if IsLetter(ch) then Letters else Digits;
      var e := RunEnd(w, t, k);
      if e == |w| {
        RunIsInClass(w, t, k, e - 1);
      }
      RunAppend(w, post, t, k);
    }
  }

  /**
   * A token that is not EOF, read from inside w and not continued by post, is
   * read the same way from w + post.
   */
  lemma NextAppend(w: seq<char>, post: seq<char>, p: nat)
    requires NextSpec(w, Settle(w, p)).Emit?
    requires NextSpec(w, Settle(w, p)).token.tokenType != EOF
    requires 0 < NextSpec(w, Settle(w, p)).next.position == |w| ==> Separated(w, post)
    ensures var o := NextSpec(w, Settle(w, p));
      o.next.position <= |w| && NextSpec(w + post, Settle(w + post, p)) == Emit(o.token, Settle(w + post, o.next.position))
  {
    var t := RunEnd(w, p, Blanks);
    assert t < |w|;
    RunEndAppend(w, post, p, Blanks);
    assert (w + post)[t] == w[t];
    ClassifyAppend(w, post, t);
  }

  /** One more call in front of an iteration. */
  lemma IterateCons(step: Cursor -> Outcome, c: Cursor, tok: Token, d: Cursor, n: nat, s: Scanned)
    requires step(c) == Emit(tok, d)
    requires Iterate(step, d, n) == Some(s)
    ensures Iterate(step, c, n + 1) == Some(Scanned([tok] + s.tokens, s.rest))
  {
  }

  /** n + m calls are n calls followed by m calls. */
  lemma {:induction false} IterateSplit(step: Cursor -> Outcome, c: Cursor, n: nat, m: nat, s1: Scanned, s2: Scanned)
    requires Iterate(step, c, n) == Some(s1)
    requires Iterate(step, s1.rest, m) == Some(s2)
    ensures Iterate(step, c, n + m) == Some(Scanned(s1.tokens + s2.tokens, s2.rest))
    decreases n
  {
    if n > 0 {
      var o := step(c);
      var s1' := Iterate(step, o.next, n - 1).value;
      assert s1 == Scanned([o.token] + s1'.tokens, s1'.rest);
      IterateSplit(step, o.next, n - 1, m, s1', s2);
      IterateCons(step, c, o.token, o.next, n - 1 + m, Scanned(s1'.tokens + s2.tokens, s2.rest));
      assert s1.tokens + s2.tokens == [o.token] + (s1'.tokens + s2.tokens);
    } else {
      assert s1.tokens + s2.tokens == s2.tokens;
    }
  }

  /** n + m `next_token` calls are n calls followed by m calls. */
  lemma ScanSplit(input: seq<char>, c: Cursor, n: nat, m: nat, s1: Scanned, s2: Scanned)
    requires Scan(input, c, n) == Some(s1)
    requires Scan(input, s1.rest, m) == Some(s2)
    ensures Scan(input, c, n + m) == Some(Scanned(s1.tokens + s2.tokens, s2.rest))
  {
    IterateSplit(Step(input), c, n, m, s1, s2);
  }

  /**
   * Two step functions where the second, on the cursor off places further on,
   * returns what the first returns, with the new cursor off places further on.
   */
  ghost predicate Shifted(step1: Cursor -> Outcome, in1: seq<char>, step2: Cursor -> Outcome, in2: seq<char>, off: nat)
  {
    forall p: nat :: step1(Settle(in1, p)).Emit? ==>
      var o := step1(Settle(in1, p));
      o.next == Settle(in1, o.next.position) && step2(Settle(in2, off + p)) == Emit(o.token, Settle(in2, off + o.next.position))
  }

  /** Iterating shifted step functions gives the same tokens and a shifted final cursor. */
  lemma {:induction false} IterateShifted(step1: Cursor -> Outcome, in1: seq<char>, step2: Cursor -> Outcome, in2: seq<char>,
                                          off: nat, p: nat, n: nat, ts: seq<Token>, q: nat)
    requires Shifted(step1, in1, step2, in2, off)
    requires Iterate(step1, Settle(in1, p), n) == Some(Scanned(ts, Settle(in1, q)))
    ensures Iterate(step2, Settle(in2, off + p), n) == Some(Scanned(ts, Settle(in2, off + q)))
    decreases n
  {
    if n > 0 {
      var o := step1(Settle(in1, p));
      var p' := o.next.position;
      var s := Iterate(step1, o.next, n - 1).value;
      assert ts == [o.token] + s.tokens && s.rest == Settle(in1, q);
      IterateShifted(step1, in1, step2, in2, off, p', n - 1, s.tokens, q);
      IterateCons(step2, Settle(in2, off + p), o.token, Settle(in2, off + p'), n - 1, Scanned(s.tokens, Settle(in2, off + q)));
    } else {
      assert Settle(in1, p) == Settle(in1, q);
    }
  }

  /** NextShift, stated for the step functions. */
  lemma StepShift(pre: seq<char>, rest: seq<char>, p: nat)
    ensures Step(rest)(Settle(rest, p)).Emit? ==>
      var o := Step(rest)(Settle(rest, p));
      o.next == Settle(rest, o.next.position) && Step(pre + rest)(Settle(pre + rest, |pre| + p)) == Emit(o.token, Settle(pre + rest, |pre| + o.next.position))
  {
    assert Step(rest)(Settle(rest, p)) == NextSpec(rest, Settle(rest, p));
    assert Step(pre + rest)(Settle(pre + rest, |pre| + p)) == NextSpec(pre + rest, Settle(pre + rest, |pre| + p));
    NextShift(pre, rest, p);
  }

  /** One call on rest and one call on pre + rest are shifted by |pre|. */
  lemma StepsShifted(pre: seq<char>, rest: seq<char>)
    ensures Shifted(Step(rest), rest, Step(pre + rest), pre + rest, |pre|)
  {
    forall p: nat ensures Step(rest)(Settle(rest, p)).Emit? ==>
      var o := Step(rest)(Settle(rest, p));
      o.next == Settle(rest, o.next.position) && Step(pre + rest)(Settle(pre + rest, |pre| + p)) == Emit(o.token, Settle(pre + rest, |pre| + o.next.position))
    {
      StepShift(pre, rest, p);
    }
  }

  /** Scans with shifted step functions, as Scan. */
  lemma ShiftedScan(in1: seq<char>, in2: seq<char>, off: nat, p: nat, n: nat, ts: seq<Token>, q: nat)
    requires Shifted(Step(in1), in1, Step(in2), in2, off)
    requires Scan(in1, Settle(in1, p), n) == Some(Scanned(ts, Settle(in1, q)))
    ensures Scan(in2, Settle(in2, off + p), n) == Some(Scanned(ts, Settle(in2, off + q)))
  {
    IterateShifted(Step(in1), in1, Step(in2), in2, off, p, n, ts, q);
  }

  /** Scanning from index p of rest is scanning from off + p of input, when input is rest after a prefix of length off. */
  lemma ScanShift(pre: seq<char>, rest: seq<char>, input: seq<char>, off: nat, p: nat, n: nat, ts: seq<Token>, q: nat)
    requires input == pre + rest && off == |pre|
    requires Scan(rest, Settle(rest, p), n) == Some(Scanned(ts, Settle(rest, q)))
    ensures Scan(input, Settle(input, off + p), n) == Some(Scanned(ts, Settle(input, off + q)))
  {
    StepsShifted(pre, rest);
    ShiftedScan(rest, input, off, p, n, ts, q);
  }

  /** No token of the sequence is an EOF token. */
  predicate NoEof(ts: seq<Token>)
  {
    forall i :: 0 <= i < |ts| ==> ts[i].tokenType != EOF
  }

  /** A non-EOF token read from inside w leaves the cursor inside w or just after it. */
  lemma NotEofEndsInside(w: seq<char>, p: nat)
    requires NextSpec(w, Settle(w, p)).Emit?
    requires NextSpec(w, Settle(w, p)).token.tokenType != EOF
    ensures p <= NextSpec(w, Settle(w, p)).next.position <= |w|
  {
  }

  /**
   * Two step functions where the second, on in2, returns what the first
   * returns on in1 for every token other than EOF, and such a token ends
   * within in1.
   */
  ghost predicate Extends(step1: Cursor -> Outcome, in1: seq<char>, step2: Cursor -> Outcome, in2: seq<char>)
  {
    forall p: nat :: step1(Settle(in1, p)).Emit? && step1(Settle(in1, p)).token.tokenType != EOF ==>
      var o := step1(Settle(in1, p));
      && o.next == Settle(in1, o.next.position) && o.next.position <= |in1|
      && step2(Settle(in2, p)) == Emit(o.token, Settle(in2, o.next.position))
  }

  /** Iterating extended step functions gives the same tokens, as long as none is EOF. */
  lemma {:induction false} IterateExtended(step1: Cursor -> Outcome, in1: seq<char>, step2: Cursor -> Outcome, in2: seq<char>,
                                           p: nat, n: nat, ts: seq<Token>, q: nat)
    requires Extends(step1, in1, step2, in2)
    requires Iterate(step1, Settle(in1, p), n) == Some(Scanned(ts, Settle(in1, q)))
    requires NoEof(ts)
    ensures Iterate(step2, Settle(in2, p), n) == Some(Scanned(ts, Settle(in2, q)))
    decreases n
  {
    if n > 0 {
      var o := step1(Settle(in1, p));
      var p' := o.next.position;
      var s := Iterate(step1, o.next, n - 1).value;
      assert ts == [o.token] + s.tokens && s.rest == Settle(in1, q);
      assert o.token == ts[0];
      assert NoEof(s.tokens) by {
        forall i | 0 <= i < |s.tokens| ensures s.tokens[i].tokenType != EOF {
          assert s.tokens[i] == ts[i + 1];
        }
      }
      IterateExtended(step1, in1, step2, in2, p', n - 1, s.tokens, q);
      IterateCons(step2, Settle(in2, p), o.token, Settle(in2, p'), n - 1, Scanned(s.tokens, Settle(in2, q)));
    } else {
      assert Settle(in1, p) == Settle(in1, q);
    }
  }

  /** NextAppend, stated for the step functions at one cursor. */
  lemma StepExtend(w: seq<char>, post: seq<char>, p: nat)
    requires Separated(w, post)
    ensures Step(w)(Settle(w, p)).Emit? && Step(w)(Settle(w, p)).token.tokenType != EOF ==>
      var o := Step(w)(Settle(w, p));
      && o.next == Settle(w, o.next.position) && o.next.position <= |w|
      && Step(w + post)(Settle(w + post, p)) == Emit(o.token, Settle(w + post, o.next.position))
  {
    assert Step(w)(Settle(w, p)) == NextSpec(w, Settle(w, p));
    assert Step(w + post)(Settle(w + post, p)) == NextSpec(w + post, Settle(w + post, p));
    if NextSpec(w, Settle(w, p)).Emit? && NextSpec(w, Settle(w, p)).token.tokenType != EOF {
      NextAppend(w, post, p);
    }
  }

  /** One call on w and one call on w + post agree on every token but EOF. */
  lemma StepsExtend(w: seq<char>, post: seq<char>)
    requires Separated(w, post)
    ensures Extends(Step(w), w, Step(w + post), w + post)
  {
    forall p: nat ensures Step(w)(Settle(w, p)).Emit? && Step(w)(Settle(w, p)).token.tokenType != EOF ==>
      var o := Step(w)(Settle(w, p));
      && o.next == Settle(w, o.next.position) && o.next.position <= |w|
      && Step(w + post)(Settle(w + post, p)) == Emit(o.token, Settle(w + post, o.next.position))
    {
      StepExtend(w, post, p);
    }
  }

  /** Scans with extended step functions, as Scan. */
  lemma ExtendedScan(in1: seq<char>, in2: seq<char>, p: nat, n: nat, ts: seq<Token>, q: nat)
    requires Extends(Step(in1), in1, Step(in2), in2)
    requires Scan(in1, Settle(in1, p), n) == Some(Scanned(ts, Settle(in1, q))) && NoEof(ts)
    ensures Scan(in2, Settle(in2, p), n) == Some(Scanned(ts, Settle(in2, q)))
  {
    IterateExtended(Step(in1), in1, Step(in2), in2, p, n, ts, q);
  }

  /**
   * A scan of w that returns no EOF is unchanged in input, which is w followed
   * by text that cannot continue w's last token.
   */
  lemma ScanAppend(w: seq<char>, post: seq<char>, input: seq<char>, p: nat, n: nat, ts: seq<Token>, q: nat)
    requires input == w + post && Separated(w, post)
    requires Scan(w, Settle(w, p), n) == Some(Scanned(ts, Settle(w, q))) && NoEof(ts)
    ensures Scan(input, Settle(input, p), n) == Some(Scanned(ts, Settle(input, q)))
  {
    StepsExtend(w, post);
    ExtendedScan(w, input, p, n, ts, q);
  }

  /** The concatenation of a sequence of sequences. */
  function Concat<T>(xss: seq<seq<T>>): seq<T>
  {
    if xss == [] then [] else xss[0] + Concat(xss[1..])
  }

  /**
   * Iterating a step function that extends step1 and shifts step2 reads the
   * text of in1 and then the text of in2.
   */
  lemma IteratePair(step1: Cursor -> Outcome, in1: seq<char>, step2: Cursor -> Outcome, in2: seq<char>,
                    step: Cursor -> Outcome, input: seq<char>, n1: nat, n2: nat, ts1: seq<Token>, ts2: seq<Token>)
    requires |input| == |in1| + |in2|
    requires Extends(step1, in1, step, input) && Shifted(step2, in2, step, input, |in1|)
    requires Iterate(step1, Settle(in1, 0), n1) == Some(Scanned(ts1, Settle(in1, |in1|))) && NoEof(ts1)
    requires Iterate(step2, Settle(in2, 0), n2) == Some(Scanned(ts2, Settle(in2, |in2|)))
    ensures Iterate(step, Settle(input, 0), n1 + n2) == Some(Scanned(ts1 + ts2, Settle(input, |input|)))
  {
    var off := |in1|;
    IterateExtended(step1, in1, step, input, 0, n1, ts1, off);
    IterateShifted(step2, in2, step, input, off, 0, n2, ts2, |in2|);
    IterateSplit(step, Settle(input, 0), n1, n2, Scanned(ts1, Settle(input, off)), Scanned(ts2, Settle(input, |input|)));
  }

  /**
   * A reading for every text, here for the lexer and in the generic lemmas
   * below for any family, where every text extends to and is shifted into any
   * text it is followed by or follows, when they are separated.
   */
  ghost predicate Local(F: seq<char> -> (Cursor -> Outcome))
  {
    forall w: seq<char>, post: seq<char> {:trigger Separated(w, post)} :: Separated(w, post) ==>
      && Extends(F(w), w, F(w + post), w + post)
      && Shifted(F(post), post, F(w + post), w + post, |w|)
  }

  /** The lexer's `next_token` is local. */
  lemma StepIsLocal()
    ensures Local(Step)
  {
    forall w: seq<char>, post: seq<char> | Separated(w, post)
      ensures Extends(Step(w), w, Step(w + post), w + post)
      ensures Shifted(Step(post), post, Step(w + post), w + post, |w|)
    {
      StepsExtend(w, post);
      StepsShifted(w, post);
    }
  }

  /** step reads w from its first character to exactly ts, none of them EOF, and ends just after w. */
  ghost predicate ReadsTo(step: Cursor -> Outcome, w: seq<char>, ts: seq<Token>)
  {
    && Iterate(step, Settle(w, 0), |ts|) == Some(Scanned(ts, Settle(w, |w|)))
    && NoEof(ts)
  }

  /** The lexer reads w on its own to ts. */
  predicate ScansTo(w: string, ts: seq<Token>)
  {
    && Scan(w, Settle(w, 0), |ts|) == Some(Scanned(ts, Settle(w, |w|)))
    && NoEof(ts)
  }

  /** Non-empty pieces, each read by its member of F to its tokens and separated from the next. */
  ghost predicate Pieces(F: seq<char> -> (Cursor -> Outcome), ws: seq<string>, tss: seq<seq<Token>>)
  {
    && |ws| == |tss|
    && (forall i :: 0 <= i < |ws| ==> |ws[i]| > 0 && ReadsTo(F(ws[i]), ws[i], tss[i]))
    && (forall i :: 0 < i < |ws| ==> Separated(ws[i - 1], ws[i]))
  }

  /** Separation from the first text of a concatenation is separation from the concatenation. */
  lemma SeparatedConcat(w: string, ws: seq<string>)
    requires ws != [] ==> |ws[0]| > 0 && Separated(w, ws[0])
    ensures Separated(w, Concat(ws))
  {
    if ws != [] {
      assert Concat(ws) == ws[0] + Concat(ws[1..]);
      assert Concat(ws)[0] == ws[0][0];
    }
  }

  /** The pieces after the first are pieces too, and the first is separated from their text. */
  lemma PiecesTail(F: seq<char> -> (Cursor -> Outcome), ws: seq<string>, tss: seq<seq<Token>>)
    requires Pieces(F, ws, tss) && ws != []
    ensures Pieces(F, ws[1..], tss[1..])
    ensures |ws[0]| > 0 && ReadsTo(F(ws[0]), ws[0], tss[0])
    ensures Separated(ws[0], Concat(ws[1..]))
  {
    var ws', tss' := ws[1..], tss[1..];
    assert |ws[0]| > 0 && ReadsTo(F(ws[0]), ws[0], tss[0]);
    forall i | 0 <= i < |ws'| ensures |ws'[i]| > 0 && ReadsTo(F(ws'[i]), ws'[i], tss'[i]) {
      assert |ws[i + 1]| > 0 && ReadsTo(F(ws[i + 1]), ws[i + 1], tss[i + 1]);
    }
    forall i | 0 < i < |ws'| ensures Separated(ws'[i - 1], ws'[i]) {
      assert Separated(ws[i], ws[i + 1]);
    }
    if ws' != [] {
      assert Separated(ws[0], ws[1]) && |ws'[0]| > 0;
    }
    SeparatedConcat(ws[0], ws');
  }

  /** Pieces read by a local family, joined, are read to their joined tokens. */
  lemma {:induction false} IterateConcat(F: seq<char> -> (Cursor -> Outcome), ws: seq<string>, tss: seq<seq<Token>>)
    requires Local(F) && Pieces(F, ws, tss)
    ensures Iterate(F(Concat(ws)), Settle(Concat(ws), 0), |Concat(tss)|) == Some(Scanned(Concat(tss), Settle(Concat(ws), |Concat(ws)|)))
    decreases |ws|
  {
    if ws != [] {
      var ws', tss' := ws[1..], tss[1..];
      var w, rest, ts, rts := ws[0], Concat(ws'), tss[0], Concat(tss');
      PiecesTail(F, ws, tss);
      IterateConcat(F, ws', tss');
      var input := Concat(ws);
      assert input == w + rest && Concat(tss) == ts + rts;
      PiecePair(F, w, rest, input, ts, rts);
    }
  }

  /** A piece read by a local family, followed by separated text it reads to its end. */
  lemma PiecePair(F: seq<char> -> (Cursor -> Outcome), w: string, rest: string, input: string, ts: seq<Token>, rts: seq<Token>)
    requires Local(F) && input == w + rest && Separated(w, rest)
    requires ReadsTo(F(w), w, ts)
    requires Iterate(F(rest), Settle(rest, 0), |rts|) == Some(Scanned(rts, Settle(rest, |rest|)))
    ensures Iterate(F(input), Settle(input, 0), |ts| + |rts|) == Some(Scanned(ts + rts, Settle(input, |input|)))
  {
    assert Extends(F(w), w, F(w + rest), w + rest) && Shifted(F(rest), rest, F(w + rest), w + rest, |w|);
    IteratePair(F(w), w, F(rest), rest, F(input), input, |ts|, |rts|, ts, rts);
  }

  /** The lexer on the joined text of its pieces returns their joined tokens. */
  lemma ScanConcat(ws: seq<string>, tss: seq<seq<Token>>)
    requires Pieces(Step, ws, tss)
    ensures Scan(Concat(ws), Settle(Concat(ws), 0), |Concat(tss)|) == Some(Scanned(Concat(tss), Settle(Concat(ws), |Concat(ws)|)))
  {
    StepIsLocal();
    IterateConcat(Step, ws, tss);
  }

  /** Two chains of pieces, separated where they meet, form one chain. */
  lemma PiecesAppend(F: seq<char> -> (Cursor -> Outcome), ws1: seq<string>, tss1: seq<seq<Token>>, ws2: seq<string>, tss2: seq<seq<Token>>)
    requires Pieces(F, ws1, tss1) && Pieces(F, ws2, tss2)
    requires ws1 != [] && ws2 != [] ==> Separated(ws1[|ws1| - 1], ws2[0])
    ensures Pieces(F, ws1 + ws2, tss1 + tss2)
  {
    var ws, tss := ws1 + ws2, tss1 + tss2;
    forall i | 0 <= i < |ws| ensures |ws[i]| > 0 && ReadsTo(F(ws[i]), ws[i], tss[i]) {
      if i < |ws1| {
        AtIndex(F, ws1, tss1, ws, tss, i, i);
      } else {
        AtIndex(F, ws2, tss2, ws, tss, i - |ws1|, i);
      }
    }
    forall i | 0 < i < |ws| ensures Separated(ws[i - 1], ws[i]) {
      if i < |ws1| {
        assert Separated(ws1[i - 1], ws1[i]);
      } else if i > |ws1| {
        assert Separated(ws2[i - 1 - |ws1|], ws2[i - |ws1|]);
      }
    }
  }

  /** The piece at index i of one chain, found at index j of another. */
  lemma AtIndex(F: seq<char> -> (Cursor -> Outcome), ws: seq<string>, tss: seq<seq<Token>>, ws': seq<string>, tss': seq<seq<Token>>, i: nat, j: nat)
    requires Pieces(F, ws, tss) && i < |ws| && j < |ws'| && j < |tss'|
    requires ws'[j] == ws[i] && tss'[j] == tss[i]
    ensures |ws'[j]| > 0 && ReadsTo(F(ws'[j]), ws'[j], tss'[j])
  {
    assert |ws[i]| > 0 && ReadsTo(F(ws[i]), ws[i], tss[i]);
  }

  /** Chains of pieces, each separated from the next, concatenate to one chain. */
  lemma {:induction false} PiecesConcat(F: seq<char> -> (Cursor -> Outcome), wss: seq<seq<string>>, tsss: seq<seq<seq<Token>>>)
    requires |wss| == |tsss|
    requires forall k :: 0 <= k < |wss| ==> wss[k] != [] && Pieces(F, wss[k], tsss[k])
    requires forall k :: 0 < k < |wss| ==> Separated(wss[k - 1][|wss[k - 1]| - 1], wss[k][0])
    ensures Pieces(F, Concat(wss), Concat(tsss))
    decreases |wss|
  {
    if wss == [] {
      assert Pieces(F, [], []);
    } else {
      var wss', tsss' := wss[1..], tsss[1..];
      var ws, tss, rest, rtss := wss[0], tsss[0], Concat(wss'), Concat(tsss');
      ChainAt(F, wss, tsss, 0);
      forall k | 0 <= k < |wss'| ensures wss'[k] != [] && Pieces(F, wss'[k], tsss'[k]) {
        ChainAt(F, wss, tsss, k + 1);
      }
      forall k | 0 < k < |wss'| ensures Separated(wss'[k - 1][|wss'[k - 1]| - 1], wss'[k][0]) {
        assert Separated(wss[k][|wss[k]| - 1], wss[k + 1][0]);
      }
      PiecesConcat(F, wss', tsss');
      if wss' != [] {
        assert Separated(wss[0][|wss[0]| - 1], wss[1][0]);
        assert rest == wss'[0] + Concat(wss'[1..]);
      }
      assert Concat(wss) == ws + rest && Concat(tsss) == tss + rtss;
      PiecesAppend(F, ws, tss, rest, rtss);
    }
  }

  /** The chain at index k of a sequence of chains. */
  lemma ChainAt(F: seq<char> -> (Cursor -> Outcome), wss: seq<seq<string>>, tsss: seq<seq<seq<Token>>>, k: nat)
    requires |wss| == |tsss| && k < |wss|
    requires forall k :: 0 <= k < |wss| ==> wss[k] != [] && Pieces(F, wss[k], tsss[k])
    ensures wss[k] != [] && Pieces(F, wss[k], tsss[k])
  {
  }
}
