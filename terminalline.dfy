/**
 * The bracketed prefix of components/terminal/TerminalLine.tsx: a label padded
 * to six columns, coloured by a fixed palette, and shown only for a non-empty label.
 */
module TerminalLine {
  import opened Wrappers
  import JsString

  /** The seven values `prefixColor` may take. */
  datatype Color = Green | Yellow | Cyan | Magenta | Red | Orange | Blue

  function ColorName(c: Color): string {
    match c
    case Green => "green"
    case Yellow => "yellow"
    case Cyan => "cyan"
    case Magenta => "magenta"
    case Red => "red"
    case Orange => "orange"
    case Blue => "blue"
  }

  /** The `prefixColors` table: each colour gets the `text-terminal-` class of its own name. */
  function ColorClass(c: Color): (cls: string)
    ensures cls == "text-terminal-" + ColorName(c)
  {
    match c
    case Green => "text-terminal-green"
    case Yellow => "text-terminal-yellow"
    case Cyan => "text-terminal-cyan"
    case Magenta => "text-terminal-magenta"
    case Red => "text-terminal-red"
    case Orange => "text-terminal-orange"
    case Blue => "text-terminal-blue"
  }

  /** Different colours get different classes. */
  lemma ColorClassInjective(a: Color, b: Color)
    requires ColorClass(a) == ColorClass(b)
    ensures a == b
  {
    assert ColorClass(a)[14] == ColorClass(b)[14];
    assert ColorClass(a)[15] == ColorClass(b)[15];
  }

  /** The rendered prefix: its colour class and its bracketed, padded text. */
  datatype Prefix = Prefix(colorClass: string, text: string)

  /**
   * The prefix span of a line. It appears only when `prefix` is truthy, that is
   * given and not empty; its colour defaults to green; its text is the label
   * padded with spaces to at least six columns, in brackets, never cut short.
   */
  function Render(prefix: Option<string>, prefixColor: Option<Color>): (r: Option<Prefix>)
    ensures r.Some? <==> prefix.Some? && prefix.value != []
    ensures r.Some? ==> r.value.colorClass == ColorClass(if prefixColor.Some? then prefixColor.value else Green)
    ensures r.Some? ==>
      var p := prefix.value;
      && |r.value.text| == (if |p| < 6 then 6 else |p|) + 2
      && r.value.text[0] == '[' && r.value.text[|r.value.text| - 1] == ']'
      && r.value.text[1..|p| + 1] == p
      && forall i :: |p| + 1 <= i < |r.value.text| - 1 ==> r.value.text[i] == ' '
  {
    match prefix
    case None => None
    case Some(p) =>
      if p == [] then None
      else
        var color := match prefixColor case None => Green case Some(c) => c;
        var padded := JsString.PadEnd(p, 6);
        var text := "[" + padded + "]";
        assert |padded| >= |p|;
        assert forall i :: 1 <= i < |text| - 1 ==> text[i] == padded[i - 1];
        assert text[1..|p| + 1] == padded[..|p|];
        Some(Prefix(ColorClass(color), text))
  }

  /** The spacer after the prefix is shown under the same condition as the prefix itself. */
  function HasSpacer(prefix: Option<string>): (b: bool)
    ensures b <==> Render(prefix, None).Some?
  {
    prefix.Some? && prefix.value != []
  }
}
