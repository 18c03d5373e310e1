/**
 * Loading an env file (`set_env`): every line that is not a comment and
 * holds an `=` sets one variable of the process environment, in file order.
 * The environment is a map from names to values; the file is given as the
 * sequence of its lines.
 */
module Config {
  import opened RustTypes
  import opened Text

  /** The process environment. */
  type Env = map<string, string>

  /** What one accepted line asks for: set `key` to `value`. */
  datatype Assignment = Assignment(key: string, value: string)

  /**
   * The environment after the whole file, or the index of the line whose
   * `env::set_var` call panicked, which ends the process.
   */
  datatype LoadOutcome = Loaded(env: Env) | Panicked(line: nat)

  /** The filter of set_env: not a comment, and holds an `=`. */
  predicate IsAssignmentLine(line: string)
  {
    !StartsWith(line, "#") && '=' in line
  }

  /**
   * The pair an accepted line sets: the first two pieces of the line split
   * on `=`; anything from a second `=` on is dropped.
   */
  function ParseLine(line: string): (a: Option<Assignment>)
    ensures a.Some? <==> IsAssignmentLine(line)
    ensures a.Some? ==> '=' !in a.value.key && '=' !in a.value.value
  {
    if IsAssignmentLine(line) then
      var v := Split(line, '=');
      Some(Assignment(v[0], v[1]))
    else
      None
  }

  /**
   * The arguments on which `env::set_var` panics (Unix): an empty name, a
   * name holding `=` or NUL, or a value holding NUL. The first two are the
   * names Unix `setenv` rejects with EINVAL.
   */
  predicate SetVarPanics(a: Assignment)
  {
    a.key == "" || '=' in a.key || '\0' in a.key || '\0' in a.value
  }

  /** The panic test for line `j` of `lines`. */
  predicate PanicsAt(lines: seq<string>, j: int)
    requires 0 <= j < |lines|
  {
    ParseLine(lines[j]).Some? && SetVarPanics(ParseLine(lines[j]).value)
  }

  /**
   * One turn of set_env's loop: line number `index` applied to the outcome
   * of the lines before it.
   */
  function Step(r: LoadOutcome, line: string, index: nat): LoadOutcome
  {
    match r
    case Panicked(_) => r
    case Loaded(e) =>
      match ParseLine(line)
      case None => r
      case Some(a) => if SetVarPanics(a) then Panicked(index) else Loaded(e[a.key := a.value])
  }

  /** The lines applied in order to `env`, stopping at the first panic. */
  function ApplyLines(env: Env, lines: seq<string>): LoadOutcome
    decreases |lines|
  {
    if lines == [] then Loaded(env)
    else
      var n := |lines| - 1;
      Step(ApplyLines(env, lines[..n]), lines[n], n)
  }

  /** Loading one more line is one more turn of the loop. */
  lemma ApplyLinesSnoc(env: Env, lines: seq<string>, line: string)
    ensures ApplyLines(env, lines + [line]) == Step(ApplyLines(env, lines), line, |lines|)
  {
    assert (lines + [line])[..|lines|] == lines;
  }

  /**
   * Loading panics exactly when some accepted line panics, and then at the
   * first such line.
   */
  lemma {:induction false} PanicsAtFirstBadLine(env: Env, lines: seq<string>)
    ensures ApplyLines(env, lines).Loaded? <==> forall j :: 0 <= j < |lines| ==> !PanicsAt(lines, j)
    ensures ApplyLines(env, lines).Panicked? ==>
      var k := ApplyLines(env, lines).line;
      k < |lines| && PanicsAt(lines, k) && forall j :: 0 <= j < k ==> !PanicsAt(lines, j)
    decreases |lines|
  {
    if lines != [] {
      var n := |lines| - 1;
      var init := lines[..n];
      assert forall j :: 0 <= j < n ==> PanicsAt(init, j) == PanicsAt(lines, j);
      PanicsAtFirstBadLine(env, init);
      var r := ApplyLines(env, init);
      if r.Panicked? {
        assert ApplyLines(env, lines) == r;
        assert !(forall j :: 0 <= j < |lines| ==> !PanicsAt(lines, j)) by {
          assert PanicsAt(init, r.line);
        }
      } else if PanicsAt(lines, n) {
        assert ApplyLines(env, lines) == Panicked(n);
      } else {
        assert ApplyLines(env, lines).Loaded?;
      }
    }
  }

  /**
   * set_env: walks the lines, updating the environment for each accepted
   * one; a panicking `set_var` ends the walk.
   */
  method SetEnv(env: Env, lines: seq<string>) returns (r: LoadOutcome)
    ensures r == ApplyLines(env, lines)
  {
    var vars := env;
    var i := 0;
    while i < |lines|
      invariant 0 <= i <= |lines|
      invariant ApplyLines(env, lines[..i]) == Loaded(vars)
    {
      var line := lines[i];
      assert lines[..i + 1][..i] == lines[..i];
      if !StartsWith(line, "#") && '=' in line {
        var v := Split(line, '=');
        if SetVarPanics(Assignment(v[0], v[1])) {
          PanicIsFinal(env, lines, i + 1);
          return Panicked(i);
        }
        vars := vars[v[0] := v[1]];
      }
      i := i + 1;
    }
    assert lines[..i] == lines;
    r := Loaded(vars);
  }

  /** Once a prefix of the file panics, the rest of the file is never read. */
  lemma {:induction false} PanicIsFinal(env: Env, lines: seq<string>, n: nat)
    requires n <= |lines|
    requires ApplyLines(env, lines[..n]).Panicked?
    ensures ApplyLines(env, lines) == ApplyLines(env, lines[..n])
    decreases |lines| - n
  {
    if n < |lines| {
      var m := |lines| - 1;
      assert lines[..m][..n] == lines[..n];
      PanicIsFinal(env, lines[..m], n);
    } else {
      assert lines[..n] == lines;
    }
  }

  /**
   * An accepted line sets the text before its first `=` to the text between
   * the first and the second `=` (or the end of the line).
   */
  lemma AssignmentFields(line: string)
    requires IsAssignmentLine(line)
    ensures var a := ParseLine(line).value;
      && '=' !in a.key && '=' !in a.value
      && |a.key| + 1 + |a.value| <= |line|
      && line == a.key + "=" + a.value + line[|a.key| + 1 + |a.value|..]
      && (|a.key| + 1 + |a.value| == |line| || line[|a.key| + 1 + |a.value|] == '=')
  {
    var v := Split(line, '=');
    JoinSplit(line, '=');
    assert line == v[0] + "=" + Join(v[1..], '=');
    if |v| > 2 {
      assert v[1..][1..] == v[2..];
      assert Join(v[1..], '=') == v[1] + "=" + Join(v[2..], '=');
    }
  }

  /** The keys set by the accepted lines of `lines`. */
  ghost function AssignedKeys(lines: seq<string>): set<string>
  {
    set j | 0 <= j < |lines| && ParseLine(lines[j]).Some? :: ParseLine(lines[j]).value.key
  }

  /** The keys of one more line's assignment join those of the lines before it. */
  lemma AssignedKeysSnoc(lines: seq<string>, line: string)
    ensures AssignedKeys(lines + [line]) ==
      AssignedKeys(lines) + if ParseLine(line).Some? then {ParseLine(line).value.key} else {}
  {
    var all := lines + [line];
    var extra: set<string> := if ParseLine(line).Some? then {ParseLine(line).value.key} else {};
    forall k | k in AssignedKeys(all) ensures k in AssignedKeys(lines) + extra {
      var j :| 0 <= j < |all| && ParseLine(all[j]).Some? && ParseLine(all[j]).value.key == k;
      if j < |lines| {
        assert all[j] == lines[j];
      }
    }
    forall k | k in AssignedKeys(lines) + extra ensures k in AssignedKeys(all) {
      if k in AssignedKeys(lines) {
        var j :| 0 <= j < |lines| && ParseLine(lines[j]).Some? && ParseLine(lines[j]).value.key == k;
        assert all[j] == lines[j];
      } else {
        assert all[|lines|] == line;
      }
    }
  }

  /** Loading only adds the keys that accepted lines name; it removes none. */
  lemma {:induction false} LoadedKeys(env: Env, lines: seq<string>)
    requires ApplyLines(env, lines).Loaded?
    ensures ApplyLines(env, lines).env.Keys == env.Keys + AssignedKeys(lines)
    decreases |lines|
  {
    if lines != [] {
      var n := |lines| - 1;
      var init := lines[..n];
      assert lines == init + [lines[n]];
      LoadedKeys(env, init);
      AssignedKeysSnoc(init, lines[n]);
    }
  }

  /** The value of a key is the value of the last accepted line that names it. */
  lemma {:induction false} LastAssignmentWins(env: Env, lines: seq<string>, j: nat)
    requires ApplyLines(env, lines).Loaded?
    requires j < |lines| && ParseLine(lines[j]).Some?
    requires forall k :: j < k < |lines| && ParseLine(lines[k]).Some? ==>
      ParseLine(lines[k]).value.key != ParseLine(lines[j]).value.key
    ensures var a := ParseLine(lines[j]).value;
      a.key in ApplyLines(env, lines).env && ApplyLines(env, lines).env[a.key] == a.value
    decreases |lines|
  {
    var n := |lines| - 1;
    var init := lines[..n];
    if j < n {
      assert forall k :: j < k < n ==> init[k] == lines[k];
      LastAssignmentWins(env, init, j);
    }
  }

  /** A key that no accepted line names keeps its old value, or stays unset. */
  lemma {:induction false} UnassignedKeyKept(env: Env, lines: seq<string>, key: string)
    requires ApplyLines(env, lines).Loaded?
    requires forall j :: 0 <= j < |lines| && ParseLine(lines[j]).Some? ==> ParseLine(lines[j]).value.key != key
    ensures key in ApplyLines(env, lines).env <==> key in env
    ensures key in env ==> ApplyLines(env, lines).env[key] == env[key]
    decreases |lines|
  {
    if lines != [] {
      var n := |lines| - 1;
      var init := lines[..n];
      assert forall j :: 0 <= j < n ==> init[j] == lines[j];
      UnassignedKeyKept(env, init, key);
    }
  }

  /** A comment line, or a line without `=`, changes nothing wherever it stands. */
  lemma {:induction false} SkippedLineIgnored(env: Env, before: seq<string>, line: string, after: seq<string>)
    requires !IsAssignmentLine(line)
    ensures ApplyLines(env, before + [line] + after).Loaded? == ApplyLines(env, before + after).Loaded?
    ensures ApplyLines(env, before + after).Loaded? ==>
      ApplyLines(env, before + [line] + after).env == ApplyLines(env, before + after).env
    decreases |after|
  {
    if after == [] {
      assert before + [line] + after == before + [line];
      assert before + after == before;
      ApplyLinesSnoc(env, before, line);
    } else {
      var m := |after| - 1;
      var last := after[m];
      assert before + [line] + after == (before + [line] + after[..m]) + [last];
      assert before + after == (before + after[..m]) + [last];
      ApplyLinesSnoc(env, before + [line] + after[..m], last);
      ApplyLinesSnoc(env, before + after[..m], last);
      SkippedLineIgnored(env, before, line, after[..m]);
    }
  }
}
