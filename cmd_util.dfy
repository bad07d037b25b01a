/**
 * Output helpers of the command-line layer: the colour tag of `colorize`
 * and `mapKeyValString`.
 *
 * The colour library's tables (FgColors, ExFgColors, Options) are given as
 * lookups from a colour code to the name it is listed under, "" when it is
 * not listed; color.WrapTag is left abstract (`Wrapped`). Go's range over a
 * map visits the keys in an unspecified order, given as `order`.
 */
module CmdUtil {
  import opened Strings
  import opened Seqs
  import opened Wrappers

  /** A Colorer: one colour code, or a Style made of several. */
  datatype Colorer = Color(code: string) | Style(codes: seq<string>)

  datatype ColorTables = ColorTables(
    fgColors: string -> string,
    exFgColors: string -> string,
    options: string -> string)

  /** fmt.Sprint(v) as is, or wrapped in a colour tag. */
  datatype Rendered = Plain(text: string) | Wrapped(text: string, tag: string)

  function Codes(x: Colorer): seq<string>
  {
    match x
    case Color(c) => [c]
    case Style(cs) => cs
  }

  /** The foreground name one `check` finds for a code: the extended table's wins. */
  function FgName(t: ColorTables, c: string): string
  {
    if t.exFgColors(c) != "" then t.exFgColors(c) else t.fgColors(c)
  }

  function FgNames(t: ColorTables, codes: seq<string>): (r: seq<string>)
    ensures |r| == |codes|
  {
    seq(|codes|, i requires 0 <= i < |codes| => FgName(t, codes[i]))
  }

  function OpNames(t: ColorTables, codes: seq<string>): (r: seq<string>)
    ensures |r| == |codes|
  {
    seq(|codes|, i requires 0 <= i < |codes| => t.options(codes[i]))
  }

  /** The name left after checking every code in turn: the last one found. */
  function LastFound(names: seq<string>): string
  {
    if names == [] then ""
    else if names[|names| - 1] != "" then names[|names| - 1]
    else LastFound(names[..|names| - 1])
  }

  /** LastFound is "" exactly when no code was found, and otherwise the name found for the last code found. */
  lemma {:induction false} LastFoundMeaning(names: seq<string>)
    ensures LastFound(names) == "" <==> forall i :: 0 <= i < |names| ==> names[i] == ""
    ensures LastFound(names) != "" ==>
              exists i :: 0 <= i < |names| && names[i] == LastFound(names)
                          && forall j :: i < j < |names| ==> names[j] == ""
  {
    if names != [] {
      var init := names[..|names| - 1];
      LastFoundMeaning(init);
      if names[|names| - 1] == "" {
        if LastFound(names) != "" {
          var i :| 0 <= i < |init| && init[i] == LastFound(init)
                   && forall j :: i < j < |init| ==> init[j] == "";
          assert names[i] == LastFound(names);
        }
        forall i | 0 <= i < |names| - 1 ensures names[i] == init[i] {}
      }
    }
  }

  /** The tag: "fg=F", "op=O", both joined by ";", or "" when neither was found. */
  function Tag(fg: string, op: string): (tag: string)
    ensures tag == "" <==> fg == "" && op == ""
  {
    if fg == "" && op == "" then ""
    else if op == "" then "fg=" + fg
    else if fg == "" then "op=" + op
    else "fg=" + fg + ";" + "op=" + op
  }

  /** The value of the first `key=value` part. */
  function TagField(parts: seq<string>, key: string): string
  {
    if parts == [] then ""
    else if key + "=" <= parts[0] then parts[0][|key| + 1..]
    else TagField(parts[1..], key)
  }

  /** Reads a colour tag back into its foreground and option names. */
  function ParseTag(tag: string): (string, string)
  {
    var parts := if tag == "" then [] else Split(tag, ';');
    (TagField(parts, "fg"), TagField(parts, "op"))
  }

  /** A tag determines the names it was built from (names never contain ';'). */
  lemma TagRoundTrip(fg: string, op: string)
    requires ';' !in fg && ';' !in op
    ensures ParseTag(Tag(fg, op)) == (fg, op)
  {
    var tag := Tag(fg, op);
    if fg != "" && op != "" {
      var parts := ["fg=" + fg, "op=" + op];
      assert Join(parts, ";") == tag;
      SplitJoin(parts, ';');
      assert !("fg=" <= parts[1]);
      assert !("op=" <= parts[0]);
      assert TagField(parts, "op") == TagField(parts[1..], "op");
    } else if fg != "" {
      assert ';' !in tag && tag[0] == 'f';
      assert Split(tag, ';') == [tag];
      assert !("op=" <= tag);
      assert TagField([tag], "op") == TagField([], "op");
    } else if op != "" {
      assert ';' !in tag && tag[0] == 'o';
      assert Split(tag, ';') == [tag];
      assert !("fg=" <= tag);
      assert TagField([tag], "fg") == TagField([], "fg");
    }
  }

  /**
   * colorize: the plain text when coloured output is off or there is no
   * colour; otherwise the text with the tag naming the last foreground and
   * the last option found among the colour's codes.
   */
  method Colorize(coloredOutput: bool, x: Option<Colorer>, v: string, t: ColorTables) returns (r: Rendered)
    ensures !coloredOutput || x.None? ==> r == Plain(v)
    ensures coloredOutput && x.Some? ==>
              r == Wrapped(v, Tag(LastFound(FgNames(t, Codes(x.value))), LastFound(OpNames(t, Codes(x.value)))))
  {
    if !coloredOutput || x.None? {
      return Plain(v);
    }
    var codes := Codes(x.value);
    var fg, op := "", "";
    for i := 0 to |codes|
      invariant fg == LastFound(FgNames(t, codes)[..i])
      invariant op == LastFound(OpNames(t, codes)[..i])
    {
      var c := codes[i];
      if t.fgColors(c) != "" {
        fg := t.fgColors(c);
      }
      if t.exFgColors(c) != "" {
        fg := t.exFgColors(c);
      }
      if t.options(c) != "" {
        op := t.options(c);
      }
      assert FgNames(t, codes)[..i + 1][..i] == FgNames(t, codes)[..i];
      assert OpNames(t, codes)[..i + 1][..i] == OpNames(t, codes)[..i];
    }
    assert FgNames(t, codes)[..|codes|] == FgNames(t, codes);
    assert OpNames(t, codes)[..|codes|] == OpNames(t, codes);
    var tag := "";
    if fg != "" {
      tag := "fg=" + fg;
    }
    if op != "" {
      if tag != "" {
        tag := tag + ";";
      }
      tag := tag + "op=" + op;
    }
    return Wrapped(v, tag);
  }

  /** The part an entry contributes: f(k, v) unless that is empty. */
  function Part(m: map<string, string>, f: (string, string) -> string): string -> seq<string>
  {
    k => if k in m && f(k, m[k]) != "" then [f(k, m[k])] else []
  }

  /** The parts in visiting order. */
  function Parts(m: map<string, string>, f: (string, string) -> string, order: seq<string>): seq<string>
  {
    FlatMap(order, Part(m, f))
  }

  /** mapKeyValString: the non-empty f(k, v), space-separated, in visiting order. */
  method MapKeyValString(m: map<string, string>, f: (string, string) -> string, order: seq<string>)
    returns (s: string)
    requires Enumerates(order, m.Keys)
    ensures s == Join(Parts(m, f, order), " ")
  {
    var ss: seq<string> := [];
    for i := 0 to |order|
      invariant ss == FlatMap(order[..i], Part(m, f))
    {
      var k := order[i];
      FlatMapSnoc(order[..i], k, Part(m, f));
      assert order[..i + 1] == order[..i] + [k];
      var part := f(k, m[k]);
      if part == "" {
        continue;
      }
      ss := ss + [part];
    }
    assert order[..|order|] == order;
    s := Join(ss, " ");
  }

  /** At most one part per entry; every part is non-empty and is f of some entry; every non-empty f of an entry is a part. */
  lemma PartsMeaning(m: map<string, string>, f: (string, string) -> string, order: seq<string>)
    requires Enumerates(order, m.Keys)
    ensures |Parts(m, f, order)| <= |m|
    ensures forall p :: p in Parts(m, f, order) <==> p != "" && exists k :: k in m && f(k, m[k]) == p
  {
    FlatMapAtMostOneEach(order, Part(m, f));
    EnumerationLength(order, m.Keys);
    forall p ensures p in Parts(m, f, order) <==> p != "" && exists k :: k in m && f(k, m[k]) == p {
      FlatMapMembers(order, Part(m, f), p);
      if p != "" && exists k :: k in m && f(k, m[k]) == p {
        var k :| k in m && f(k, m[k]) == p;
        var i :| 0 <= i < |order| && order[i] == k;
        assert p in Part(m, f)(order[i]);
      }
    }
  }

  /** An empty map, or an f that is always empty, gives "". */
  lemma EmptyPartsGiveEmptyString(m: map<string, string>, f: (string, string) -> string, order: seq<string>)
    requires Enumerates(order, m.Keys)
    requires forall k :: k in m ==> f(k, m[k]) == ""
    ensures Parts(m, f, order) == [] && Join(Parts(m, f, order), " ") == ""
  {
    FlatMapOfEmptyChunks(order, Part(m, f));
  }

  /** Visiting the map in another order permutes the parts and changes nothing else. */
  lemma PartsOrderIrrelevant(m: map<string, string>, f: (string, string) -> string, o1: seq<string>, o2: seq<string>)
    requires Enumerates(o1, m.Keys) && Enumerates(o2, m.Keys)
    ensures multiset(Parts(m, f, o1)) == multiset(Parts(m, f, o2))
  {
    EnumerationsArePermutations(o1, o2, m.Keys);
    FlatMapPermutation(o1, o2, Part(m, f));
  }

  /** When no part contains a space, splitting the result on spaces gives the parts back. */
  lemma MapKeyValStringSplits(m: map<string, string>, f: (string, string) -> string, order: seq<string>)
    requires Enumerates(order, m.Keys)
    requires Parts(m, f, order) != []
    requires forall k :: k in m ==> ' ' !in f(k, m[k])
    ensures Split(Join(Parts(m, f, order), " "), ' ') == Parts(m, f, order)
  {
    var parts := Parts(m, f, order);
    PartsMeaning(m, f, order);
    forall i | 0 <= i < |parts| ensures ' ' !in parts[i] {
      assert parts[i] in parts;
    }
    SplitJoin(parts, ' ');
  }
}
