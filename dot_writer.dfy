/** `DotWriter` (writer.py): the graphviz attributes of a class node, with
    its record-shape label `{title|attrs\l|m()\l...}`. */
module DotWriter {
  import opened PyRuntime

  /** What `get_values` reads of a diagram object: its title, shape,
      attribute lines and method names, and whether its node is an
      exception class (decided by pyreverse's `is_exception`). */
  datatype DotObject = DotObject(title: string, shape: string, attrs: seq<string>, methods: seq<string>, isException: bool)

  /** The two characters `\l` graphviz reads as a left-justified line break. */
  const LineBreak: string := "\\l"

  /** The prefix of an interface's title: the guillemets and a literal
      backslash-n. */
  const InterfacePrefix: string := "\U{00AB}interface\U{00BB}\\n"

  /** `DotWriter.get_title`. */
  function GetTitle(obj: DotObject): string
  {
    obj.title
  }

  /** `sep.join(parts)`: the parts with `sep` between neighbours. */
  function JoinWith(parts: seq<string>, sep: string): string
  {
    if parts == [] then ""
    else if |parts| == 1 then parts[0]
    else parts[0] + sep + JoinWith(parts[1..], sep)
  }

  /** The methods' compartment: `name()\l` per method, in method order. */
  function MethodLines(methods: seq<string>): string
  {
    if methods == [] then ""
    else MethodLines(methods[..|methods| - 1]) + methods[|methods| - 1] + "()" + LineBreak
  }

  /** The title as it opens the label: prefixed for an interface. */
  function Heading(obj: DotObject): string
  {
    if obj.shape == "interface" then InterfacePrefix + GetTitle(obj) else GetTitle(obj)
  }

  /** The label `get_values` builds: the heading alone, or the record
      `{heading|attrs\l|methods}`. */
  function RecordLabel(obj: DotObject, onlyClassnames: bool): string
  {
    if onlyClassnames then Heading(obj)
    else "{" + Heading(obj) + "|" + JoinWith(obj.attrs, LineBreak) + LineBreak + "|" + MethodLines(obj.methods) + "}"
  }

  /** `DotWriter.get_values(obj)` with `config.only_classnames`. */
  method GetValues(obj: DotObject, onlyClassnames: bool) returns (d: map<string, string>)
    ensures d.Keys == if obj.isException then {"fontcolor", "label", "shape"} else {"label", "shape"}
    ensures d["label"] == RecordLabel(obj, onlyClassnames) && d["shape"] == "record"
    ensures obj.isException ==> d["fontcolor"] == "red"
  {
    var text := GetTitle(obj);
    if obj.shape == "interface" {
      text := InterfacePrefix + text;
    }
    if !onlyClassnames {
      text := AppendMethodLines(text + "|" + JoinWith(obj.attrs, LineBreak) + LineBreak + "|", obj.methods);
      text := "{" + text + "}";
    }
    if obj.isException {
      return map["fontcolor" := "red", "label" := text, "shape" := "record"];
    }
    return map["label" := text, "shape" := "record"];
  }

  /** The loop of `get_values` over the methods: one `name()\l` line each. */
  method AppendMethodLines(text: string, methods: seq<string>) returns (r: string)
    ensures r == text + MethodLines(methods)
  {
    r := text;
    for i := 0 to |methods|
      invariant r == text + MethodLines(methods[..i])
    {
      assert methods[..i + 1][..i] == methods[..i];
      r := r + methods[i] + "()" + LineBreak;
    }
    assert methods[..|methods|] == methods;
  }

  /** With `only_classnames` the label is the (possibly prefixed) title and
      has no braces; otherwise it is braced. */
  lemma LabelBraces(obj: DotObject, onlyClassnames: bool)
    requires '{' !in obj.title && '}' !in obj.title
    ensures var l := RecordLabel(obj, onlyClassnames);
            && (onlyClassnames ==> '{' !in l && '}' !in l)
            && (!onlyClassnames ==> |l| >= 2 && l[0] == '{' && l[|l| - 1] == '}')
  {
    var l := RecordLabel(obj, onlyClassnames);
    if onlyClassnames && obj.shape == "interface" {
      assert forall c :: c in l ==> c in InterfacePrefix || c in obj.title;
    }
  }

  /** Every method line ends with `()\l`; `n` methods make `n` such lines,
      so the compartment is as long as the names plus four characters each. */
  lemma {:induction false} MethodLinesLength(methods: seq<string>)
    ensures |MethodLines(methods)| == TotalLength(methods) + 4 * |methods|
  {
    if methods != [] {
      var n := |methods| - 1;
      MethodLinesLength(methods[..n]);
      TotalLengthSnoc(methods[..n], methods[n]);
      assert methods[..n] + [methods[n]] == methods;
    }
  }

  function TotalLength(parts: seq<string>): nat
  {
    if parts == [] then 0 else |parts[0]| + TotalLength(parts[1..])
  }

  lemma {:induction false} TotalLengthSnoc(parts: seq<string>, last: string)
    ensures TotalLength(parts + [last]) == TotalLength(parts) + |last|
  {
    if parts != [] {
      assert (parts + [last])[1..] == parts[1..] + [last];
      TotalLengthSnoc(parts[1..], last);
    }
  }

  /** When neither the heading, nor an attribute, nor a method name holds
      a `|`, the record's three compartments are recovered by splitting
      the text between the braces on `|`: the heading, the attribute
      lines and the method lines. */
  lemma RecordCompartments(obj: DotObject)
    requires '|' !in Heading(obj)
    requires forall i :: 0 <= i < |obj.attrs| ==> '|' !in obj.attrs[i]
    requires forall i :: 0 <= i < |obj.methods| ==> '|' !in obj.methods[i]
    ensures var l := RecordLabel(obj, false);
            Split(l[1..|l| - 1], '|') == [Heading(obj), JoinWith(obj.attrs, LineBreak) + LineBreak, MethodLines(obj.methods)]
  {
    var h, a, m := Heading(obj), JoinWith(obj.attrs, LineBreak) + LineBreak, MethodLines(obj.methods);
    var l := RecordLabel(obj, false);
    assert l[1..|l| - 1] == h + ['|'] + (a + ['|'] + m);
    JoinWithAvoids(obj.attrs, LineBreak, '|');
    MethodLinesAvoid(obj.methods, '|');
    SplitCons(h, a + ['|'] + m, '|');
    SplitTwo(a, m, '|');
  }

  /** A character in none of the parts nor in the separator is not in their
      join. */
  lemma {:induction false} JoinWithAvoids(parts: seq<string>, sep: string, c: char)
    requires c !in sep && forall i :: 0 <= i < |parts| ==> c !in parts[i]
    ensures c !in JoinWith(parts, sep)
  {
    if |parts| > 1 {
      JoinWithAvoids(parts[1..], sep, c);
    }
  }

  lemma {:induction false} MethodLinesAvoid(methods: seq<string>, c: char)
    requires c != '(' && c != ')' && c !in LineBreak
    requires forall i :: 0 <= i < |methods| ==> c !in methods[i]
    ensures c !in MethodLines(methods)
  {
    if methods != [] {
      MethodLinesAvoid(methods[..|methods| - 1], c);
    }
  }

  /** Splitting text that starts with a separator-free piece and a
      separator yields that piece, then the split of the rest. */
  lemma {:induction false} SplitCons(a: string, b: string, sep: char)
    requires sep !in a
    ensures Split(a + [sep] + b, sep) == [a] + Split(b, sep)
  {
    if a == [] {
      assert [] + [sep] + b == [sep] + b;
      assert ([sep] + b)[1..] == b;
    } else {
      assert (a + [sep] + b)[1..] == a[1..] + [sep] + b;
      SplitCons(a[1..], b, sep);
      assert [a[0]] + a[1..] == a;
    }
  }
}
