/** The email-shape test shared by the signup, login and password-reset forms: the
    unanchored regular expression `/\S+@\S+\.\S+/`.  It is specified twice, once as the
    regular expression's match condition and once in its minimal form, and decided by a
    single left-to-right scan that is proved to agree with both. */
module Email {
  import opened Common

  /** No whitespace among `s[i..j]`. */
  ghost predicate NoSpaceIn(s: string, i: int, j: int)
    requires 0 <= i <= j <= |s|
  {
    forall k :: i <= k < j ==> !IsSpace(s[k])
  }

  /** `s[p..q]` is matched by `\S+@\S+\.\S+` with the `@` at `a` and the `.` at `d`. */
  ghost predicate RegexMatchAt(s: string, p: int, a: int, d: int, q: int) {
    && 0 <= p < a && a + 1 < d && d + 1 < q <= |s|
    && NoSpaceIn(s, p, a) && s[a] == '@'
    && NoSpaceIn(s, a + 1, d) && s[d] == '.'
    && NoSpaceIn(s, d + 1, q)
  }

  /** `/\S+@\S+\.\S+/.test(s)`: some substring of `s` matches the pattern. */
  ghost predicate RegexMatches(s: string) {
    exists p, a, d, q :: RegexMatchAt(s, p, a, d, q)
  }

  /** The minimal witness: an `@` at `a` preceded by a non-space character, followed by a
      run of at least one non-space character up to a `.` at `d`, which is followed by a
      non-space character. */
  ghost predicate Witness(s: string, a: int, d: int) {
    && 0 < a && a + 1 < d && d + 1 < |s|
    && s[a] == '@' && s[d] == '.'
    && !IsSpace(s[a - 1]) && !IsSpace(s[d + 1])
    && NoSpaceIn(s, a + 1, d)
  }

  ghost predicate HasWitness(s: string) {
    exists a, d :: Witness(s, a, d)
  }

  /** The regular expression matches exactly when a minimal witness exists. */
  lemma RegexMatchesIffWitness(s: string)
    ensures RegexMatches(s) <==> HasWitness(s)
  {
    if RegexMatches(s) {
      var p, a, d, q :| RegexMatchAt(s, p, a, d, q);
      assert Witness(s, a, d);
    }
    if HasWitness(s) {
      var a, d :| Witness(s, a, d);
      assert RegexMatchAt(s, a - 1, a, d, d + 2);
    }
  }

  /** State of the scan at position `i`: the current run of non-space characters starts
      at `runStart`, and `at` is the first `@` of that run that has a non-space character
      before it, or -1 when the run has none yet. */
  ghost predicate ScanState(s: string, i: int, runStart: int, at: int) {
    && 0 <= runStart <= i <= |s|
    && (runStart == 0 || IsSpace(s[runStart - 1]))
    && NoSpaceIn(s, runStart, i)
    && (at == -1 ==> forall k :: runStart < k < i ==> s[k] != '@')
    && (at != -1 ==> runStart < at < i && s[at] == '@')
    && (at != -1 ==> forall k :: runStart < k < at ==> s[k] != '@')
  }

  function Scan(s: string, i: nat, runStart: nat, at: int): bool
    requires runStart <= i <= |s|
    decreases |s| - i
  {
    if i == |s| then false
    else if IsSpace(s[i]) then Scan(s, i + 1, i + 1, -1)
    else if s[i] == '@' && at == -1 && runStart < i then Scan(s, i + 1, runStart, i)
    else if s[i] == '.' && at != -1 && at + 2 <= i && i + 1 < |s| && !IsSpace(s[i + 1]) then true
    else Scan(s, i + 1, runStart, at)
  }

  /** The executable form of the email-shape test. */
  predicate LooksLikeEmail(s: string) {
    Scan(s, 0, 0, -1)
  }

  lemma {:induction false} ScanCorrect(s: string, i: nat, runStart: nat, at: int)
    requires ScanState(s, i, runStart, at)
    requires forall a, d :: Witness(s, a, d) ==> i <= d
    ensures Scan(s, i, runStart, at) <==> HasWitness(s)
    decreases |s| - i
  {
    // a witness whose `.` is at `i` lies inside the current run, so `at` is set and no later than its `@`
    forall a | Witness(s, a, i) ensures at != -1 && at + 2 <= i {
      assert runStart < a;
    }
    if i == |s| {
    } else if IsSpace(s[i]) {
      ScanCorrect(s, i + 1, i + 1, -1);
    } else if s[i] == '@' && at == -1 && runStart < i {
      ScanCorrect(s, i + 1, runStart, i);
    } else if s[i] == '.' && at != -1 && at + 2 <= i && i + 1 < |s| && !IsSpace(s[i + 1]) {
      assert Witness(s, at, i);
    } else {
      ScanCorrect(s, i + 1, runStart, at);
    }
  }

  /** The scan decides the regular expression exactly. */
  lemma LooksLikeEmailCorrect(s: string)
    ensures LooksLikeEmail(s) <==> RegexMatches(s)
  {
    ScanCorrect(s, 0, 0, -1);
    RegexMatchesIffWitness(s);
  }

  /** A string the pattern accepts is never blank, so "required" and "invalid" never
      apply to the same field value. */
  lemma MatchIsNotBlank(s: string)
    ensures LooksLikeEmail(s) ==> !Blank(s)
  {
    LooksLikeEmailCorrect(s);
    RegexMatchesIffWitness(s);
    if LooksLikeEmail(s) {
      assert HasWitness(s);
      var a, d :| Witness(s, a, d);
      assert !IsSpace(s[a]);
    }
  }
}
