/** expand_output_path_template: every "{ts}" in the output path template
    becomes the local timestamp, formatted YYYYMMDD_HHMMSS. The clock is not
    modelled; the timestamp is a parameter. */
module OutputPath {
  import opened Json

  const Placeholder: string := "{ts}"

  predicate StartsWith(s: string, prefix: string) {
    |prefix| <= |s| && s[..|prefix|] == prefix
  }

  /** Python `s.replace(pat, rep)`: non-overlapping occurrences, left to right. */
  function ReplaceAll(s: string, pat: string, rep: string): (r: string)
    requires pat != []
    ensures pat[0] !in s ==> r == s
    decreases |s|
  {
    if s == [] then []
    else if StartsWith(s, pat) then rep + ReplaceAll(s[|pat|..], pat, rep)
    else [s[0]] + ReplaceAll(s[1..], pat, rep)
  }

  /** The text strftime("%Y%m%d_%H%M%S") produces: eight digits, '_', six digits. */
  predicate IsTimestamp(ts: string) {
    |ts| == 15 && forall i :: 0 <= i < |ts| ==> if i == 8 then ts[i] == '_' else IsDigit(ts[i])
  }

  /** A template without '{' is returned as it is. */
  function ExpandOutputPath(template: string, timestamp: string): (path: string)
    ensures '{' !in template ==> path == template
  {
    ReplaceAll(template, Placeholder, timestamp)
  }

  // ---------------------------------------------------------------- properties

  /** A prefix of an expanded text that cannot have come from the timestamp
      was already in the template. */
  lemma {:induction false} PrefixFromTemplate(t: string, w: string, ts: string)
    requires ts != [] && ts[0] !in w
    requires StartsWith(ReplaceAll(t, Placeholder, ts), w)
    ensures StartsWith(t, w)
    decreases |w|
  {
    if w != [] {
      var r := ReplaceAll(t, Placeholder, ts);
      assert r[0] == w[0];
      assert t != [];
      if StartsWith(t, Placeholder) {
        assert false;
      } else {
        var r' := ReplaceAll(t[1..], Placeholder, ts);
        assert r == [t[0]] + r';
        assert r'[..|w| - 1] == r[1..|w|] == w[1..];
        PrefixFromTemplate(t[1..], w[1..], ts);
        assert t[..|w|] == [t[0]] + t[1..][..|w| - 1];
      }
    }
  }

  /** No "{ts}" is left in an expanded path. */
  lemma {:induction false} NoPlaceholderLeft(template: string, ts: string)
    requires IsTimestamp(ts)
    ensures var r := ExpandOutputPath(template, ts);
      forall i :: 0 <= i <= |r| ==> !StartsWith(r[i..], Placeholder)
    decreases |template|
  {
    var r := ExpandOutputPath(template, ts);
    if template == [] {
    } else if StartsWith(template, Placeholder) {
      var rest := template[|Placeholder|..];
      NoPlaceholderLeft(rest, ts);
      var r' := ExpandOutputPath(rest, ts);
      assert r == ts + r';
      forall i | 0 <= i <= |r| ensures !StartsWith(r[i..], Placeholder) {
        if i < |ts| {
          assert r[i..][0] == ts[i] != '{';
        } else {
          assert r[i..] == r'[i - |ts|..];
        }
      }
    } else {
      var rest := template[1..];
      NoPlaceholderLeft(rest, ts);
      var r' := ExpandOutputPath(rest, ts);
      assert r == [template[0]] + r';
      forall i | 0 <= i <= |r| ensures !StartsWith(r[i..], Placeholder) {
        if i == 0 {
          if StartsWith(r, Placeholder) {
            assert r'[..3] == r[1..4] == "ts}";
            assert ts[0] !in "ts}";
            PrefixFromTemplate(rest, "ts}", ts);
            assert false;
          }
        } else {
          assert r[i..] == r'[i - 1..];
        }
      }
    }
  }

  /** Text without '{' passes through the expansion unchanged. */
  lemma {:induction false} BraceFreePrefix(p: string, rest: string, ts: string)
    requires '{' !in p
    ensures ReplaceAll(p + rest, Placeholder, ts) == p + ReplaceAll(rest, Placeholder, ts)
  {
    if p != [] {
      var s := p + rest;
      assert s[0] == p[0] != '{';
      assert !StartsWith(s, Placeholder);
      assert s[1..] == p[1..] + rest;
      BraceFreePrefix(p[1..], rest, ts);
    } else {
      assert p + rest == rest;
    }
  }

  /** A template with one "{ts}" and no other '{' expands to the template
      with the timestamp in the placeholder's place. */
  lemma ExpandSinglePlaceholder(prefix: string, suffix: string, ts: string)
    requires '{' !in prefix && '{' !in suffix
    ensures ExpandOutputPath(prefix + Placeholder + suffix, ts) == prefix + ts + suffix
  {
    BraceFreePrefix(prefix, Placeholder + suffix, ts);
    var s := Placeholder + suffix;
    assert StartsWith(s, Placeholder) && s[|Placeholder|..] == suffix;
    BraceFreePrefix(suffix, [], ts);
    assert suffix + [] == suffix;
    assert prefix + Placeholder + suffix == prefix + s;
  }
}
