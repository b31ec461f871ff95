/** Small utilities: the debugging pretty-printer that lays a `toString()`
    text out one element per line, and the lookup of a key in a properties
    resource. */
module Misc {
  import opened Common
  import opened Text

  const IndentWidth := 4

  predicate IsOpener(c: char) { c == '(' || c == '[' || c == '{' }

  predicate IsCloser(c: char) { c == ')' || c == ']' || c == '}' }

  /** `"".padStart(n)`: `n` spaces; a negative length is an illegal argument. */
  function PadStart(n: int): (r: Result<string>)
    ensures r.Ok? <==> n >= 0
    ensures r.Ok? ==> r.value == Repeat(' ', n)
  {
    if n < 0 then Err(IllegalArgument) else Ok(Repeat(' ', n))
  }

  /** The state of the printing loop: the next index, the indent level and
      the text built so far. */
  datatype Printer = Printer(i: nat, level: int, out: string)

  /** One turn of the loop at index `p.i`. An opener raises the level and
      is followed by a line break and the new padding; a closer lowers the
      level first and is preceded by a line break and the new padding; a
      comma is followed by a line break and the padding, and a space right
      after it is skipped; any other character is copied. */
  function Step(text: string, p: Printer): (r: Result<Printer>)
    requires p.i < |text|
    ensures r.Ok? ==> p.i < r.value.i <= |text|
  {
    var c := text[p.i];
    if IsOpener(c) then
      match PadStart((p.level + 1) * IndentWidth)
      case Err(e) => Err(e)
      case Ok(pad) => Ok(Printer(p.i + 1, p.level + 1, p.out + [c] + "\n" + pad))
    else if IsCloser(c) then
      match PadStart((p.level - 1) * IndentWidth)
      case Err(e) => Err(e)
      case Ok(pad) => Ok(Printer(p.i + 1, p.level - 1, p.out + "\n" + pad + [c]))
    else if c == ',' then
      match PadStart(p.level * IndentWidth)
      case Err(e) => Err(e)
      case Ok(pad) =>
        var skip := p.i + 1 < |text| && text[p.i + 1] == ' ';
        Ok(Printer(if skip then p.i + 2 else p.i + 1, p.level, p.out + [c] + "\n" + pad))
    else Ok(Printer(p.i + 1, p.level, p.out + [c]))
  }

  /** The loop from state `p` to the end of the text. */
  function Run(text: string, p: Printer): Result<string>
    requires p.i <= |text|
    decreases |text| - p.i
  {
    if p.i == |text| then Ok(p.out)
    else
      match Step(text, p)
      case Err(e) => Err(e)
      case Ok(q) => Run(text, q)
  }

  /** What `prettyPrint` prints for a `toString()` text. */
  function PrettyText(text: string): Result<string> {
    Run(text, Printer(0, 0, ""))
  }

  /** The printing loop of `prettyPrint`. */
  method PrettyPrint(text: string) returns (r: Result<string>)
    ensures r == PrettyText(text)
  {
    var indentLevel := 0;
    var sb := "";
    var i := 0;
    while i < |text|
      invariant 0 <= i <= |text|
      invariant Run(text, Printer(i, indentLevel, sb)) == PrettyText(text)
      decreases |text| - i
    {
      ghost var p := Printer(i, indentLevel, sb);
      var c := text[i];
      if c == '(' || c == '[' || c == '{' {
        indentLevel := indentLevel + 1;
        var pad := PadStart(indentLevel * IndentWidth);
        if pad.Err? {
          assert Step(text, p) == Err(pad.error);
          return Err(pad.error);
        }
        sb := sb + [c] + "\n" + pad.value;
      } else if c == ')' || c == ']' || c == '}' {
        indentLevel := indentLevel - 1;
        var pad := PadStart(indentLevel * IndentWidth);
        if pad.Err? {
          assert Step(text, p) == Err(pad.error);
          return Err(pad.error);
        }
        sb := sb + "\n" + pad.value + [c];
      } else if c == ',' {
        var pad := PadStart(indentLevel * IndentWidth);
        if pad.Err? {
          assert Step(text, p) == Err(pad.error);
          return Err(pad.error);
        }
        sb := sb + [c] + "\n" + pad.value;
        var nextChar := if i + 1 < |text| then text[i + 1] else c;
        if nextChar == ' ' {
          i := i + 1;
        }
      } else {
        sb := sb + [c];
      }
      i := i + 1;
      assert Step(text, p) == Ok(Printer(i, indentLevel, sb));
    }
    r := Ok(sb);
  }

  // ---------------------------------------------------------------- what the layout keeps

  /** The text with its spaces and line breaks taken out. */
  function Squeeze(s: string): (r: string)
    ensures |r| <= |s|
  {
    if s == [] then []
    else Squeeze(s[..|s| - 1]) + (if s[|s| - 1] == ' ' || s[|s| - 1] == '\n' then [] else [s[|s| - 1]])
  }

  lemma {:induction false} SqueezeAppend(a: string, b: string)
    ensures Squeeze(a + b) == Squeeze(a) + Squeeze(b)
    decreases |b|
  {
    if b == [] {
      assert a + b == a;
    } else {
      assert (a + b)[..|a + b| - 1] == a + b[..|b| - 1];
      SqueezeAppend(a, b[..|b| - 1]);
    }
  }

  lemma {:induction false} SqueezeBlank(n: nat)
    ensures Squeeze(Repeat(' ', n)) == []
  {
    if n > 0 {
      assert Repeat(' ', n)[..n - 1] == Repeat(' ', n - 1);
      SqueezeBlank(n - 1);
    }
  }

  lemma SqueezeOne(c: char)
    ensures Squeeze([c]) == if c == ' ' || c == '\n' then [] else [c]
  {
    assert [c][..0] == [];
  }

  /** A character followed by a line break and padding. */
  lemma SqueezeThenBreak(out: string, c: char, n: nat)
    ensures Squeeze(out + [c] + "\n" + Repeat(' ', n)) == Squeeze(out) + Squeeze([c])
  {
    SqueezeBlank(n);
    SqueezeOne('\n');
    SqueezeAppend(out + [c] + "\n", Repeat(' ', n));
    SqueezeAppend(out + [c], "\n");
    SqueezeAppend(out, [c]);
  }

  /** A line break and padding followed by a character. */
  lemma SqueezeBreakThen(out: string, c: char, n: nat)
    ensures Squeeze(out + "\n" + Repeat(' ', n) + [c]) == Squeeze(out) + Squeeze([c])
  {
    SqueezeBlank(n);
    SqueezeOne('\n');
    SqueezeAppend(out + "\n" + Repeat(' ', n), [c]);
    SqueezeAppend(out + "\n", Repeat(' ', n));
    SqueezeAppend(out, "\n");
  }

  /** One step adds to the squeezed output exactly what it consumes of the
      squeezed input. */
  lemma StepSqueeze(text: string, p: Printer)
    requires p.i < |text| && Step(text, p).Ok?
    ensures var q := Step(text, p).value;
            Squeeze(q.out) == Squeeze(p.out) + Squeeze(text[p.i..q.i])
  {
    var q := Step(text, p).value;
    var c := text[p.i];
    if IsOpener(c) {
      var n := (p.level + 1) * IndentWidth;
      assert n >= 0 && q == Printer(p.i + 1, p.level + 1, p.out + [c] + "\n" + Repeat(' ', n));
      SqueezeThenBreak(p.out, c, n);
      assert text[p.i..q.i] == [c];
    } else if IsCloser(c) {
      var n := (p.level - 1) * IndentWidth;
      assert n >= 0 && q == Printer(p.i + 1, p.level - 1, p.out + "\n" + Repeat(' ', n) + [c]);
      SqueezeBreakThen(p.out, c, n);
      assert text[p.i..q.i] == [c];
    } else if c == ',' {
      var n := p.level * IndentWidth;
      assert n >= 0 && q.out == p.out + [c] + "\n" + Repeat(' ', n);
      SqueezeThenBreak(p.out, c, n);
      CommaSqueeze(text, p.i, q.i);
    } else {
      assert q == Printer(p.i + 1, p.level, p.out + [c]);
      SqueezeAppend(p.out, [c]);
      assert text[p.i..q.i] == [c];
    }
  }

  /** A comma, and the space after it when one is skipped, squeeze to the comma. */
  lemma CommaSqueeze(text: string, i: nat, j: nat)
    requires i < |text| && text[i] == ',' && (j == i + 1 || (j == i + 2 <= |text| && text[i + 1] == ' '))
    ensures Squeeze(text[i..j]) == Squeeze([text[i]])
  {
    if j == i + 2 {
      assert text[i..j] == [text[i]] + [' '];
      SqueezeAppend([text[i]], [' ']);
      SqueezeOne(' ');
    } else {
      assert text[i..j] == [text[i]];
    }
  }

  lemma {:induction false} RunSqueeze(text: string, p: Printer, r: string)
    requires p.i <= |text| && Run(text, p) == Ok(r)
    ensures Squeeze(r) == Squeeze(p.out) + Squeeze(text[p.i..])
    decreases |text| - p.i
  {
    if p.i == |text| {
      assert text[p.i..] == [];
    } else {
      var q := Step(text, p).value;
      StepSqueeze(text, p);
      RunSqueeze(text, q, r);
      Chain(text, p, q, r);
    }
  }

  lemma Chain(text: string, p: Printer, q: Printer, r: string)
    requires p.i <= q.i <= |text|
    requires Squeeze(q.out) == Squeeze(p.out) + Squeeze(text[p.i..q.i])
    requires Squeeze(r) == Squeeze(q.out) + Squeeze(text[q.i..])
    ensures Squeeze(r) == Squeeze(p.out) + Squeeze(text[p.i..])
  {
    SliceSqueeze(text, p.i, q.i);
    Regroup(Squeeze(p.out), Squeeze(text[p.i..q.i]), Squeeze(text[q.i..]));
  }

  lemma Regroup(a: string, b: string, c: string)
    ensures (a + b) + c == a + (b + c)
  {
  }

  lemma SliceSqueeze(text: string, i: nat, j: nat)
    requires i <= j <= |text|
    ensures Squeeze(text[i..]) == Squeeze(text[i..j]) + Squeeze(text[j..])
  {
    assert text[i..] == text[i..j] + text[j..];
    SqueezeAppend(text[i..j], text[j..]);
  }

  /** The layout only adds and drops spaces and line breaks: with those
      taken out, the printed text is the input. */
  lemma PrettyTextKeepsContent(text: string)
    requires PrettyText(text).Ok?
    ensures Squeeze(PrettyText(text).value) == Squeeze(text)
  {
    RunSqueeze(text, Printer(0, 0, ""), PrettyText(text).value);
    assert text[0..] == text;
  }

  // ---------------------------------------------------------------- when the layout fails

  /** Openers minus closers in a text: the indent level after it. */
  function Depth(s: string): int {
    if s == [] then 0
    else Depth(s[..|s| - 1]) + (if IsOpener(s[|s| - 1]) then 1 else if IsCloser(s[|s| - 1]) then -1 else 0)
  }

  /** Every prefix from `i` on has a non-negative depth. */
  ghost predicate Balanced(text: string, i: nat)
    requires i <= |text|
  {
    forall k :: i <= k <= |text| ==> Depth(text[..k]) >= 0
  }

  /** One step keeps the level equal to the depth of the consumed text. */
  lemma StepDepth(text: string, p: Printer)
    requires p.i < |text| && p.level == Depth(text[..p.i]) && p.level >= 0
    ensures Step(text, p).Ok? <==> Depth(text[..p.i + 1]) >= 0
    ensures Step(text, p).Ok? ==> var q := Step(text, p).value;
              q.level == Depth(text[..q.i]) && (q.i == p.i + 2 ==> Depth(text[..p.i + 1]) == q.level)
  {
    assert text[..p.i + 1][..p.i] == text[..p.i];
    var c := text[p.i];
    if c == ',' && p.i + 1 < |text| && text[p.i + 1] == ' ' {
      assert Depth(text[..p.i + 1]) == p.level;
      assert text[..p.i + 2][..p.i + 1] == text[..p.i + 1];
      assert Depth(text[..p.i + 2]) == p.level;
    }
  }

  lemma {:induction false} RunFailsIff(text: string, p: Printer)
    requires p.i <= |text| && p.level == Depth(text[..p.i]) && p.level >= 0
    ensures Run(text, p).Ok? <==> Balanced(text, p.i)
    decreases |text| - p.i
  {
    if p.i < |text| {
      StepDepth(text, p);
      if Step(text, p).Ok? {
        var q := Step(text, p).value;
        RunFailsIff(text, q);
        if q.i == p.i + 2 {
          assert Balanced(text, p.i) <==> Balanced(text, q.i);
        }
      }
    }
  }

  /** Printing fails exactly when some prefix of the text closes more
      brackets than it opened: the padding of the negative level is an
      illegal argument. */
  lemma PrettyTextFailsIff(text: string)
    ensures PrettyText(text).Ok? <==> forall k :: 0 <= k <= |text| ==> Depth(text[..k]) >= 0
    ensures PrettyText(text).Err? ==> PrettyText(text).error == IllegalArgument
  {
    assert text[..0] == [];
    RunFailsIff(text, Printer(0, 0, ""));
    RunError(text, Printer(0, 0, ""));
  }

  lemma {:induction false} RunError(text: string, p: Printer)
    requires p.i <= |text|
    ensures Run(text, p).Err? ==> Run(text, p).error == IllegalArgument
    decreases |text| - p.i
  {
    if p.i < |text| && Step(text, p).Ok? {
      RunError(text, Step(text, p).value);
    }
  }

  // ---------------------------------------------------------------- properties files

  /** `startsWith` */
  predicate StartsWith(s: string, prefix: string) {
    |prefix| <= |s| && s[..|prefix|] == prefix
  }

  /** The resource path `loadProperties` opens, as written: its test can
      never fail, since no path starts with both a slash and a backslash. */
  function SafePath(path: string): string {
    if !StartsWith(path, "/") || !StartsWith(path, "\\") then "/" + path else path
  }

  /** Every path gets a slash in front, even one that already has one. */
  lemma SafePathAlwaysPrepends(path: string)
    ensures SafePath(path) == "/" + path
  {
    if StartsWith(path, "/") {
      assert path[0] == '/';
    }
  }

  /** The class-path resources, each a properties file; reading them is
      outside the model. */
  type Resources = map<string, map<string, string>>

  /** `loadProperties`: the file at the normalised path, if there is one. */
  function LoadProperties(resources: Resources, path: string): (r: Option<map<string, string>>)
    ensures r.Some? <==> "/" + path in resources
    ensures r.Some? ==> r.value == resources["/" + path]
  {
    SafePathAlwaysPrepends(path);
    var safePath := SafePath(path);
    if safePath in resources then Some(resources[safePath]) else None
  }

  /** `getProperty`: the value of the key, or "Unknown" when the file or
      the key is missing. */
  function GetProperty(resources: Resources, path: string, key: string): (v: string)
    ensures "/" + path in resources && key in resources["/" + path] ==> v == resources["/" + path][key]
    ensures !("/" + path in resources && key in resources["/" + path]) ==> v == "Unknown"
  {
    match LoadProperties(resources, path)
    case None => "Unknown"
    case Some(properties) => if key in properties then properties[key] else "Unknown"
  }
}
