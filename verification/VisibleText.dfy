// The characters of a text that are not whitespace: what cutting, stripping and joining conserve.
module VisibleText {
  import opened Text

  function Visible(s: string): string {
    if s == "" then "" else Visible(s[..|s| - 1]) + if IsSpace(s[|s| - 1]) then "" else [s[|s| - 1]]
  }

  function VisibleAll(parts: seq<string>): string {
    if parts == [] then "" else VisibleAll(parts[..|parts| - 1]) + Visible(parts[|parts| - 1])
  }

  /** The parts that `strip` does not empty. */
  function NonBlank(parts: seq<string>): seq<string> {
    if parts == [] then []
    else NonBlank(parts[..|parts| - 1]) + if Strip(parts[|parts| - 1]) == "" then [] else [parts[|parts| - 1]]
  }

  lemma {:induction false} VisibleConcat(a: string, b: string)
    ensures Visible(a + b) == Visible(a) + Visible(b)
  {
    if b == "" {
      assert a + b == a;
    } else {
      VisibleConcat(a, b[..|b| - 1]);
      assert (a + b)[..|a + b| - 1] == a + b[..|b| - 1];
    }
  }

  lemma {:induction false} VisibleBlank(s: string)
    requires IsBlank(s)
    ensures Visible(s) == ""
  {
    if s != "" {
      VisibleBlank(s[..|s| - 1]);
    }
  }

  lemma VisibleStrip(s: string)
    ensures Visible(Strip(s)) == Visible(s)
  {
    var pre, post := StripCutsWhitespaceEnds(s);
    VisibleConcat(pre + Strip(s), post);
    VisibleConcat(pre, Strip(s));
    VisibleBlank(pre);
    VisibleBlank(post);
  }

  lemma {:induction false} VisibleJoin(parts: seq<string>, separator: string)
    requires IsBlank(separator)
    ensures Visible(Join(parts, separator)) == VisibleAll(parts)
  {
    VisibleBlank(separator);
    if |parts| == 1 {
      assert parts[..0] == [];
    } else if |parts| > 1 {
      var front, last := parts[..|parts| - 1], parts[|parts| - 1];
      VisibleJoin(front, separator);
      VisibleConcat(Join(front, separator) + separator, last);
      VisibleConcat(Join(front, separator), separator);
    }
  }

  lemma VisibleAllSnoc(parts: seq<string>, last: string)
    ensures VisibleAll(parts + [last]) == VisibleAll(parts) + Visible(last)
  {
    assert (parts + [last])[..|parts|] == parts;
  }

  lemma {:induction false} VisibleAllConcat(a: seq<string>, b: seq<string>)
    ensures VisibleAll(a + b) == VisibleAll(a) + VisibleAll(b)
  {
    if b == [] {
      assert a + b == a;
    } else {
      var front, last := b[..|b| - 1], b[|b| - 1];
      VisibleAllConcat(a, front);
      VisibleAllSnoc(a + front, last);
      VisibleAllSnoc(front, last);
      assert b == front + [last] && a + b == a + front + [last];
    }
  }

  lemma {:induction false} VisibleNonBlank(parts: seq<string>)
    ensures VisibleAll(NonBlank(parts)) == VisibleAll(parts)
  {
    if parts != [] {
      var front, last := parts[..|parts| - 1], parts[|parts| - 1];
      VisibleNonBlank(front);
      VisibleStrip(last);
      VisibleAllConcat(NonBlank(front), if Strip(last) == "" then [] else [last]);
      assert [last][..0] == [];
    }
  }

  lemma {:induction false} NonBlankParts(parts: seq<string>, i: nat)
    requires i < |NonBlank(parts)|
    ensures Strip(NonBlank(parts)[i]) != "" && NonBlank(parts)[i] in parts
  {
    var front := parts[..|parts| - 1];
    if i < |NonBlank(front)| {
      NonBlankParts(front, i);
    }
  }

  lemma {:induction false} VisibleIsNotBlank(s: string)
    ensures Visible(s) == "" <==> Strip(s) == ""
  {
    VisibleStrip(s);
    var pre, post := StripCutsWhitespaceEnds(s);
    var t := Strip(s);
    if t != "" {
      assert Visible(t)[|Visible(t)| - 1] == t[|t| - 1];
    }
  }
}
