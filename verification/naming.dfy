/**
 * The string parts of job submission: the default job name and log
 * sub-directory derived from a command (`submit_grid_job`), and the
 * common parameters handed to every grid job (`set_common_parameters`).
 */
module Naming {
  import opened Wrappers

  /** `s` contains "--" somewhere. */
  predicate HasDoubleDash(s: string) {
    exists i :: 0 <= i < |s| - 1 && s[i] == '-' && s[i + 1] == '-'
  }

  /** `s.split(' ')[0]`: the text before the first space, or all of `s`. */
  function FirstWord(s: string): (w: string)
    ensures w <= s
    ensures ' ' !in w
    ensures |w| < |s| ==> s[|w|] == ' '
  {
    if s == [] || s[0] == ' ' then [] else [s[0]] + FirstWord(s[1..])
  }

  /** `s` with every dash left out: what removing dashes can never change. */
  function NonDash(s: string): (r: string)
    ensures '-' !in r && |r| <= |s|
  {
    if s == [] then [] else (if s[0] == '-' then [] else [s[0]]) + NonDash(s[1..])
  }

  /** Leaving out dashes keeps every other character. */
  lemma {:induction false} NonDashKeeps(s: string, c: char)
    requires c != '-'
    ensures c in NonDash(s) <==> c in s
  {
    if s != [] {
      NonDashKeeps(s[1..], c);
      assert s == [s[0]] + s[1..];
    }
  }

  /** `k` dashes. */
  function Dashes(k: nat): (r: string)
    ensures |r| == k
  {
    if k == 0 then [] else ['-'] + Dashes(k - 1)
  }

  /** Two dashes off the front of a longer run. */
  lemma DashesPair(k: nat)
    requires k >= 2
    ensures Dashes(k) == ['-', '-'] + Dashes(k - 2)
  {
    assert Dashes(k - 1) == ['-'] + Dashes(k - 2);
  }

  /**
   * `s.replace('--', '')`: drops the non-overlapping "--" pairs, scanning
   * left to right. Every other character survives, in order (NonDash); a
   * maximal run of k dashes keeps k % 2 of them (DashRunThen, DashRunAtEnd).
   */
  function DropDoubleDashes(s: string): (r: string)
    ensures |r| <= |s|
    ensures s != [] && s[0] != '-' ==> r != [] && r[0] == s[0]
    ensures !HasDoubleDash(r)
  {
    if |s| >= 2 && s[0] == '-' && s[1] == '-' then
      DropDoubleDashes(s[2..])
    else if s == [] then
      []
    else
      var rest := DropDoubleDashes(s[1..]);
      var r := [s[0]] + rest;
      assert r[1..] == rest;
      r
  }

  /** Removing "--" pairs removes dashes only: every other character survives, in order. */
  lemma {:induction false} DropDoubleDashesNonDash(s: string)
    ensures NonDash(DropDoubleDashes(s)) == NonDash(s)
  {
    if |s| >= 2 && s[0] == '-' && s[1] == '-' {
      DropDoubleDashesNonDash(s[2..]);
      assert s[1..][1..] == s[2..];
    } else if s != [] {
      DropDoubleDashesNonDash(s[1..]);
      assert ([s[0]] + DropDoubleDashes(s[1..]))[1..] == DropDoubleDashes(s[1..]);
    }
  }

  /** A leading "--" is dropped. */
  lemma DropPair(u: string)
    ensures DropDoubleDashes(['-', '-'] + u) == DropDoubleDashes(u)
  {
    assert (['-', '-'] + u)[2..] == u;
  }

  /** A first character that does not start a "--" is kept. */
  lemma KeepFirst(x: char, u: string)
    requires x != '-' || u == [] || u[0] != '-'
    ensures DropDoubleDashes([x] + u) == [x] + DropDoubleDashes(u)
  {
    assert ([x] + u)[1..] == u;
  }

  /** Two dashes off the front of a run are dropped. */
  lemma DashRunStep(k: nat, t: string)
    requires k >= 2
    ensures DropDoubleDashes(Dashes(k) + t) == DropDoubleDashes(Dashes(k - 2) + t)
  {
    DashesPair(k);
    assert Dashes(k) + t == ['-', '-'] + (Dashes(k - 2) + t);
    DropPair(Dashes(k - 2) + t);
  }

  /** A single dash before another character is kept, and so is the character. */
  lemma SingleDashThen(c: char, t: string)
    requires c != '-'
    ensures DropDoubleDashes(Dashes(1) + ([c] + t)) == Dashes(1) + [c] + DropDoubleDashes(t)
  {
    assert Dashes(1) + ([c] + t) == ['-'] + ([c] + t);
    KeepFirst('-', [c] + t);
    KeepFirst(c, t);
  }

  /** The induction step of DashRunThen: the claim for `k - 2` dashes gives it for `k`. */
  lemma DashRunThenStep(k: nat, c: char, t: string)
    requires k >= 2
    requires DropDoubleDashes(Dashes(k - 2) + ([c] + t)) == Dashes((k - 2) % 2) + [c] + DropDoubleDashes(t)
    ensures DropDoubleDashes(Dashes(k) + ([c] + t)) == Dashes(k % 2) + [c] + DropDoubleDashes(t)
  {
    DashRunStep(k, [c] + t);
    assert (k - 2) % 2 == k % 2;
  }

  /**
   * A maximal run of `k` dashes followed by another character keeps
   * `k % 2` of its dashes; the character after it stays.
   */
  lemma {:induction false} DashRunThen(k: nat, c: char, t: string)
    requires c != '-'
    ensures DropDoubleDashes(Dashes(k) + ([c] + t)) == Dashes(k % 2) + [c] + DropDoubleDashes(t)
    decreases k
  {
    if k >= 2 {
      DashRunThen(k - 2, c, t);
      DashRunThenStep(k, c, t);
    } else if k == 1 {
      SingleDashThen(c, t);
    } else {
      assert Dashes(0) + ([c] + t) == [c] + t;
      KeepFirst(c, t);
    }
  }

  /** A run of `k` dashes at the end keeps `k % 2` of them. */
  lemma {:induction false} DashRunAtEnd(k: nat)
    ensures DropDoubleDashes(Dashes(k)) == Dashes(k % 2)
    decreases k
  {
    if k >= 2 {
      DashRunStep(k, []);
      assert Dashes(k) + [] == Dashes(k) && Dashes(k - 2) + [] == Dashes(k - 2);
      DashRunAtEnd(k - 2);
      assert (k - 2) % 2 == k % 2;
    } else if k == 1 {
      KeepFirst('-', []);
      assert Dashes(1) == ['-'] + [];
    }
  }

  /** `s.replace(' ', '__')`: every space becomes two underscores. */
  function SpacesToUnderscores(s: string): (r: string)
    ensures ' ' !in r
    ensures |r| >= |s|
    ensures forall c :: c != '_' && c != ' ' ==> (c in r <==> c in s)
  {
    if s == [] then []
    else (if s[0] == ' ' then "__" else [s[0]]) + SpacesToUnderscores(s[1..])
  }

  /** Replacing spaces works character by character: it distributes over concatenation. */
  lemma {:induction false} SpacesToUnderscoresAppend(a: string, b: string)
    ensures SpacesToUnderscores(a + b) == SpacesToUnderscores(a) + SpacesToUnderscores(b)
  {
    if a != [] {
      assert (a + b)[0] == a[0] && (a + b)[1..] == a[1..] + b;
      SpacesToUnderscoresAppend(a[1..], b);
    } else {
      assert a + b == b;
    }
  }

  /** A space becomes "__"; every other character stays as it is. */
  lemma SpacesToUnderscoresChar(c: char)
    ensures SpacesToUnderscores([c]) == if c == ' ' then "__" else [c]
  {
    assert [c][1..] == [];
  }

  /**
   * Name and log sub-directory of a submitted job. A given name is used
   * for both; otherwise the name is the command's first word and the log
   * sub-directory the whole command with spaces turned into "__", both
   * with every "--" removed.
   */
  function JobNaming(command: string, name: Option<string>): (r: (string, string))
    ensures name.Some? ==> r == (name.value, name.value)
    ensures name.None? ==> r == (DropDoubleDashes(FirstWord(command)), DropDoubleDashes(SpacesToUnderscores(command)))
    ensures name.None? ==> ' ' !in r.0 && ' ' !in r.1
    ensures name.None? ==> !HasDoubleDash(r.0) && !HasDoubleDash(r.1)
    ensures name.None? ==> NonDash(r.0) == NonDash(FirstWord(command))
    ensures name.None? ==> NonDash(r.1) == NonDash(SpacesToUnderscores(command))
  {
    match name
    case Some(n) => (n, n)
    case None =>
      var w, d := FirstWord(command), SpacesToUnderscores(command);
      DropDoubleDashesNonDash(w);
      DropDoubleDashesNonDash(d);
      NonDashKeeps(w, ' ');
      NonDashKeeps(DropDoubleDashes(w), ' ');
      NonDashKeeps(d, ' ');
      NonDashKeeps(DropDoubleDashes(d), ' ');
      (DropDoubleDashes(w), DropDoubleDashes(d))
  }

  /** Removing "--" leaves a string that has none unchanged. */
  lemma {:induction false} DropDoubleDashesIdentity(s: string)
    requires !HasDoubleDash(s)
    ensures DropDoubleDashes(s) == s
  {
    if s != [] {
      DropDoubleDashesIdentity(s[1..]);
      if |s| >= 2 {
        assert !(s[0] == '-' && s[1] == '-');
      }
    }
  }

  /** Removing "--" twice is the same as removing it once. */
  lemma DropDoubleDashesIdempotent(s: string)
    ensures DropDoubleDashes(DropDoubleDashes(s)) == DropDoubleDashes(s)
  {
    DropDoubleDashesIdentity(DropDoubleDashes(s));
  }

  /** A one-word command without "--" is its own default name and log sub-directory. */
  lemma {:induction false} PlainCommandNaming(command: string)
    requires ' ' !in command && !HasDoubleDash(command)
    ensures JobNaming(command, None) == (command, command)
  {
    FirstWordOfOneWord(command);
    SpacesToUnderscoresIdentity(command);
    DropDoubleDashesIdentity(command);
  }

  lemma {:induction false} FirstWordOfOneWord(s: string)
    requires ' ' !in s
    ensures FirstWord(s) == s
  {
    if s != [] {
      FirstWordOfOneWord(s[1..]);
    }
  }

  /** The first word of a word followed by a space and more text is that word. */
  lemma {:induction false} FirstWordOfPrefix(a: string, b: string)
    requires ' ' !in a
    ensures FirstWord(a + " " + b) == a
  {
    if a != [] {
      assert (a + " " + b)[1..] == a[1..] + " " + b;
      FirstWordOfPrefix(a[1..], b);
    } else {
      assert (a + " " + b)[0] == ' ';
    }
  }

  lemma {:induction false} SpacesToUnderscoresIdentity(s: string)
    requires ' ' !in s
    ensures SpacesToUnderscores(s) == s
  {
    if s != [] {
      SpacesToUnderscoresIdentity(s[1..]);
    }
  }

  /** The common parameters: every parameter followed by one space, in order. */
  function JoinedParameters(parameters: seq<string>): (r: string) {
    if parameters == [] then ""
    else JoinedParameters(parameters[..|parameters| - 1]) + parameters[|parameters| - 1] + " "
  }

  /** Joining distributes over concatenation of the parameter lists. */
  lemma {:induction false} JoinedParametersAppend(a: seq<string>, b: seq<string>)
    ensures JoinedParameters(a + b) == JoinedParameters(a) + JoinedParameters(b)
    decreases |b|
  {
    if b == [] {
      assert a + b == a;
    } else {
      var b' := b[..|b| - 1];
      assert (a + b)[..|a + b| - 1] == a + b';
      assert (a + b)[|a + b| - 1] == b[|b| - 1];
      assert JoinedParameters(a + b) == JoinedParameters(a + b') + b[|b| - 1] + " ";
      assert JoinedParameters(b) == JoinedParameters(b') + b[|b| - 1] + " ";
      JoinedParametersAppend(a, b');
    }
  }

  /** The joined string is as long as the parameters plus one space each, and ends with a space. */
  lemma {:induction false} JoinedParametersLength(parameters: seq<string>)
    ensures |JoinedParameters(parameters)| == TotalLength(parameters) + |parameters|
    ensures parameters != [] ==> JoinedParameters(parameters)[|JoinedParameters(parameters)| - 1] == ' '
  {
    if parameters != [] {
      var init := parameters[..|parameters| - 1];
      JoinedParametersLength(init);
      TotalLengthSnoc(init, parameters[|parameters| - 1]);
      assert init + [parameters[|parameters| - 1]] == parameters;
    }
  }

  function TotalLength(parameters: seq<string>): nat {
    if parameters == [] then 0 else |parameters[0]| + TotalLength(parameters[1..])
  }

  lemma {:induction false} TotalLengthSnoc(parameters: seq<string>, p: string)
    ensures TotalLength(parameters + [p]) == TotalLength(parameters) + |p|
  {
    if parameters != [] {
      assert (parameters + [p])[1..] == parameters[1..] + [p];
      TotalLengthSnoc(parameters[1..], p);
    }
  }
}
