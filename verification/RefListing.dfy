/** The branch listing that receive-pack observation rests on: `git for-each-ref`
    prints one "name id" line per branch, and `branchRefs` reads it back. */
module RefListing {
  import opened Text

  type Refs = map<string, string>

  // The listing Git prints for `refs`, branches in the given order.
  function Listing(refs: Refs, order: seq<string>): string
    requires Elements(order) <= refs.Keys
  {
    if order == [] then "" else
      assert order[0] in Elements(order);
      assert Elements(order[1..]) <= Elements(order);
      order[0] + " " + refs[order[0]] + "\n" + Listing(refs, order[1..])
  }

  // The map filled from the first k lines: a line counts when it has exactly two fields.
  function ParseLines(lines: seq<string>, k: nat): (r: Refs)
    requires k <= |lines|
    ensures forall name :: name in r ==> name != "" && NoSpace(name) && r[name] != "" && NoSpace(r[name])
  {
    if k == 0 then map[] else
      var fields := Fields(lines[k - 1]);
      if |fields| == 2 then ParseLines(lines, k - 1)[fields[0] := fields[1]] else ParseLines(lines, k - 1)
  }

  function Parse(output: string): Refs {
    var lines := Lines(TrimSpace(output));
    ParseLines(lines, |lines|)
  }

  method BranchRefs(output: string) returns (refs: Refs)
    ensures refs == Parse(output)
  {
    refs := map[];
    var lines := Lines(TrimSpace(output));
    for k := 0 to |lines|
      invariant refs == ParseLines(lines, k)
    {
      var fields := Fields(lines[k]);
      if |fields| == 2 {
        refs := refs[fields[0] := fields[1]];
      }
    }
  }

  // A map Git can list: names and ids are non-empty and ids are hexadecimal.
  predicate Listable(refs: Refs) {
    forall name :: name in refs ==> name != "" && refs[name] != "" && NoSpace(refs[name])
  }

  predicate SpaceFree(refs: Refs) {
    forall name :: name in refs ==> NoSpace(name)
  }

  predicate IsOrder(order: seq<string>, refs: Refs) {
    Elements(order) == refs.Keys && forall i, j :: 0 <= i < j < |order| ==> order[i] != order[j]
  }

  // What the lines of a listing with one branch per name look like.
  function ListingLines(refs: Refs, order: seq<string>): (r: seq<string>)
    requires Elements(order) <= refs.Keys
    ensures |r| == |order|
    ensures forall i :: 0 <= i < |order| ==> order[i] in Elements(order) && r[i] == order[i] + " " + refs[order[i]]
  {
    if order == [] then [] else
      assert order[0] in Elements(order);
      assert Elements(order[1..]) <= Elements(order);
      assert forall i :: 0 < i < |order| ==> order[i] == order[1..][i - 1];
      [order[0] + " " + refs[order[0]]] + ListingLines(refs, order[1..])
  }

  // No name holds a newline, so that each branch is one line.
  predicate OneLine(refs: Refs) {
    forall name :: name in refs ==> '\n' !in name
  }

  // A listing that ends in a newline and splits into its lines.
  ghost predicate WellListed(refs: Refs, order: seq<string>)
    requires Elements(order) <= refs.Keys
  {
    var s := Listing(refs, order);
    |s| > 1 && s[|s| - 1] == '\n' && !IsSpace(s[|s| - 2]) && Lines(s[..|s| - 1]) == ListingLines(refs, order)
  }

  lemma LineIs(refs: Refs, name: string)
    requires name in refs && Listable(refs) && OneLine(refs)
    ensures var line := name + " " + refs[name];
            |line| > 1 && !IsSpace(line[|line| - 1]) && TrimLeft(line) != "" && '\n' !in line
  {
    var sha := refs[name];
    TrimLeftAppend(name + " ", sha);
    assert TrimLeft(sha) == sha;
  }

  lemma {:induction false} LinesOfListing(refs: Refs, order: seq<string>)
    requires Elements(order) <= refs.Keys && Listable(refs) && OneLine(refs) && order != []
    ensures WellListed(refs, order)
  {
    assert order[0] in Elements(order) && Elements(order[1..]) <= Elements(order);
    var line := order[0] + " " + refs[order[0]];
    LineIs(refs, order[0]);
    if |order| == 1 {
      OneListed(refs, order);
    } else {
      LinesOfListing(refs, order[1..]);
      ListingPrepended(refs, order, line, Listing(refs, order[1..]));
    }
  }

  lemma OneListed(refs: Refs, order: seq<string>)
    requires |order| == 1 && Elements(order) <= refs.Keys && order[0] in refs
    requires var line := order[0] + " " + refs[order[0]];
             |line| > 1 && !IsSpace(line[|line| - 1]) && '\n' !in line
    ensures WellListed(refs, order)
  {
    var line := order[0] + " " + refs[order[0]];
    assert Listing(refs, order[1..]) == "";
    assert Listing(refs, order) == line + "\n" && (line + "\n")[..|line|] == line;
    LinesOne(line);
  }

  lemma ListingPrepended(refs: Refs, order: seq<string>, line: string, rest: string)
    requires Elements(order) <= refs.Keys && |order| > 1 && order[0] in refs && Elements(order[1..]) <= refs.Keys
    requires line == order[0] + " " + refs[order[0]] && rest == Listing(refs, order[1..])
    requires '\n' !in line && WellListed(refs, order[1..])
    ensures WellListed(refs, order)
  {
    var s := Listing(refs, order);
    assert s == line + "\n" + rest;
    assert s[..|s| - 1] == line + "\n" + rest[..|rest| - 1];
    LinesStep(line, rest[..|rest| - 1]);
    assert s[|s| - 1] == rest[|rest| - 1] && s[|s| - 2] == rest[|rest| - 2];
  }

  lemma {:induction false} TrimLeftIsSuffix(s: string)
    ensures TrimLeft(s) == s[|s| - |TrimLeft(s)|..]
  {
    if s != "" && IsSpace(s[0]) {
      TrimLeftIsSuffix(s[1..]);
    }
  }

  // Trimming the whole listing drops its last newline and the whitespace its first name starts with.
  lemma TrimmedLines(refs: Refs, order: seq<string>)
    requires Elements(order) <= refs.Keys && Listable(refs) && OneLine(refs) && order != []
    ensures var lines := ListingLines(refs, order);
            Lines(TrimSpace(Listing(refs, order))) == lines[0 := TrimLeft(lines[0])]
  {
    hide Lines; hide TrimSpace; hide TrimLeft; hide IsSpace;
    assert order[0] in Elements(order) && Elements(order[1..]) <= Elements(order);
    var line, rest := order[0] + " " + refs[order[0]], Listing(refs, order[1..]);
    assert Listing(refs, order) == line + ("\n" + rest);
    assert ListingLines(refs, order) == [line] + ListingLines(refs, order[1..]);
    if order[1..] != [] {
      LinesOfListing(refs, order[1..]);
    }
    TrimmedFirst(refs, order[0], rest);
    hide *;
    TrimmedParts(line, rest, ListingLines(refs, order[1..]));
  }

  lemma TrimmedParts(line: string, rest: string, lines: seq<string>)
    requires var trimmed := TrimLeft(line);
             && TrimLeft(line + ("\n" + rest)) == trimmed + "\n" + rest
             && trimmed != "" && '\n' !in trimmed && !IsSpace(trimmed[|trimmed| - 1])
    requires rest == "" ==> lines == []
    requires rest != "" ==>
               |rest| > 1 && rest[|rest| - 1] == '\n' && !IsSpace(rest[|rest| - 2])
                   && Lines(rest[..|rest| - 1]) == lines
    ensures Lines(TrimSpace(line + ("\n" + rest))) == [TrimLeft(line)] + lines
  {
    hide TrimLeft; hide TrimRight; hide Lines; hide IsSpace;
    if rest == "" {
      assert TrimLeft(line) + "\n" + rest == TrimLeft(line) + "\n";
      LastLine(TrimLeft(line));
    } else {
      FirstLine(TrimLeft(line), rest);
    }
  }

  lemma TrimmedFirst(refs: Refs, name: string, rest: string)
    requires name in refs && Listable(refs) && OneLine(refs)
    ensures var line := name + " " + refs[name];
            var trimmed := TrimLeft(line);
            && TrimLeft(line + ("\n" + rest)) == trimmed + "\n" + rest
            && trimmed != "" && '\n' !in trimmed && !IsSpace(trimmed[|trimmed| - 1])
  {
    var line := name + " " + refs[name];
    LineIs(refs, name);
    TrimLeftIsSuffix(line);
    TrimLeftAppend(line, "\n" + rest);
    hide TrimLeft;
    assert TrimLeft(line) + ("\n" + rest) == TrimLeft(line) + "\n" + rest;
  }

  lemma LastLine(line: string)
    requires line != "" && '\n' !in line && !IsSpace(line[|line| - 1])
    ensures Lines(TrimRight(line + "\n")) == [line]
  {
    var t := line + "\n";
    assert t[..|t| - 1] == line;
    DropsLastNewline(t);
    LinesOne(line);
  }

  lemma FirstLine(line: string, rest: string)
    requires '\n' !in line && |rest| > 1 && rest[|rest| - 1] == '\n' && !IsSpace(rest[|rest| - 2])
    ensures Lines(TrimRight(line + "\n" + rest)) == [line] + Lines(rest[..|rest| - 1])
  {
    var t := line + "\n" + rest;
    assert t[..|t| - 1] == line + "\n" + rest[..|rest| - 1];
    assert t[|t| - 1] == rest[|rest| - 1] && t[|t| - 2] == rest[|rest| - 2];
    DropsLastNewline(t);
    LinesStep(line, rest[..|rest| - 1]);
  }

  lemma DropsLastNewline(t: string)
    requires |t| > 1 && t[|t| - 1] == '\n' && !IsSpace(t[|t| - 2])
    ensures TrimRight(t) == t[..|t| - 1]
  {
    var u := t[..|t| - 1];
    assert u[|u| - 1] == t[|t| - 2];
    assert TrimRight(u) == u;
  }

  // Only the fields of the lines matter.
  lemma {:induction false} SameFields(a: seq<string>, b: seq<string>, k: nat)
    requires |a| == |b| && k <= |a| && forall i :: 0 <= i < |a| ==> Fields(a[i]) == Fields(b[i])
    ensures ParseLines(a, k) == ParseLines(b, k)
  {
    hide Fields;
    if k > 0 {
      SameFields(a, b, k - 1);
    }
  }

  // The branches a reader makes out among the first k: those whose name is one word, between
  // whitespace at most, each under that word.
  ghost predicate MadeOut(refs: Refs, order: seq<string>, k: nat, r: Refs)
    requires k <= |order| && Elements(order) <= refs.Keys
  {
    && (forall i :: 0 <= i < k && |Fields(order[i])| == 1 ==> Fields(order[i])[0] in r)
    && forall w :: w in r ==> exists i ::
          0 <= i < k && order[i] in refs && Fields(order[i]) == [w] && r[w] == refs[order[i]]
  }

  lemma NoLine(refs: Refs, order: seq<string>)
    requires Elements(order) <= refs.Keys
    ensures MadeOut(refs, order, 0, ParseLines(ListingLines(refs, order), 0))
  {
    hide Fields; hide ListingLines;
  }

  // What one more line adds to the map.
  lemma NextLine(refs: Refs, order: seq<string>, k: nat)
    requires 0 < k <= |order| && Elements(order) <= refs.Keys && Listable(refs)
    ensures order[k - 1] in refs
    ensures var lines, words := ListingLines(refs, order), Fields(order[k - 1]);
            ParseLines(lines, k)
            == if |words| != 1 then ParseLines(lines, k - 1)
               else ParseLines(lines, k - 1)[words[0] := refs[order[k - 1]]]
  {
    assert order[k - 1] in Elements(order);
    FieldsOfLine(order[k - 1], refs[order[k - 1]]);
    hide Fields; hide NoSpace; hide ListingLines; hide Elements; hide Listable;
  }

  lemma {:induction false} LinesMakeOut(refs: Refs, order: seq<string>, k: nat)
    requires k <= |order| && Elements(order) <= refs.Keys && Listable(refs)
    ensures MadeOut(refs, order, k, ParseLines(ListingLines(refs, order), k))
  {
    hide *;
    if k == 0 {
      NoLine(refs, order);
    } else {
      LinesMakeOut(refs, order, k - 1);
      NextLine(refs, order, k);
      var lines := ListingLines(refs, order);
      LineMakesOut(refs, order, k, ParseLines(lines, k - 1), ParseLines(lines, k));
    }
  }

  lemma LineMakesOut(refs: Refs, order: seq<string>, k: nat, r: Refs, r': Refs)
    requires 0 < k <= |order| && Elements(order) <= refs.Keys && MadeOut(refs, order, k - 1, r) && order[k - 1] in refs
    requires var words := Fields(order[k - 1]);
             r' == if |words| == 1 then r[words[0] := refs[order[k - 1]]] else r
    ensures MadeOut(refs, order, k, r')
  {
    hide Fields;
    var words := Fields(order[k - 1]);
    forall w | w in r'
      ensures exists i :: 0 <= i < k && order[i] in refs && Fields(order[i]) == [w] && r'[w] == refs[order[i]]
    {
      if |words| == 1 && w == words[0] {
        assert Fields(order[k - 1]) == [w];
      } else {
        var i :| 0 <= i < k - 1 && order[i] in refs && Fields(order[i]) == [w] && r[w] == refs[order[i]];
      }
    }
  }

  // What the reading of a listing is, whatever the names: a branch is read exactly when its name
  // is a single word, perhaps between whitespace, and then under that word; a word that several
  // names share goes to one of them.
  lemma ListingReads(refs: Refs, order: seq<string>)
    requires Elements(order) == refs.Keys && Listable(refs) && OneLine(refs)
    ensures var r := Parse(Listing(refs, order));
            && (forall name :: name in refs && |Fields(name)| == 1 ==> Fields(name)[0] in r)
            && (forall w :: w in r ==> exists name :: name in refs && Fields(name) == [w] && r[w] == refs[name])
  {
    if order == [] {
      assert refs.Keys == {};
      ParseOfNothing();
    } else {
      var lines := ListingLines(refs, order);
      TrimmedLines(refs, order);
      TrimmedFields(lines[0]);
      SameFields(lines, lines[0 := TrimLeft(lines[0])], |order|);
      LinesMakeOut(refs, order, |order|);
      hide Fields; hide ListingLines; hide Listing; hide TrimSpace; hide Lines; hide ParseLines;
      forall name | name in refs && |Fields(name)| == 1 ensures Fields(name)[0] in Parse(Listing(refs, order)) {
        assert name in Elements(order);
      }
    }
  }

  lemma ParseOfSpaceFree(refs: Refs, order: seq<string>)
    requires Elements(order) == refs.Keys && Listable(refs)
    requires SpaceFree(refs)
    ensures Parse(Listing(refs, order)) == refs
  {
    forall name | name in refs ensures '\n' !in name && Fields(name) == [name] {
      FieldsOfWord(name);
    }
    ListingReads(refs, order);
    hide Fields; hide Parse; hide Listing; hide NoSpace;
    var r := Parse(Listing(refs, order));
    forall w | w in r ensures w in refs && r[w] == refs[w] {
      var name :| name in refs && Fields(name) == [w] && r[w] == refs[name];
      assert [name] == [w];
    }
    forall name | name in refs ensures name in r {
      assert Fields(name)[0] == name;
    }
  }

  lemma ParseOfNothing()
    ensures Parse("") == map[]
  {
    assert TrimSpace("") == "";
    assert Fields("") == [];
    assert ParseLines([""], 0) == map[] && ParseLines([""], 1) == map[];
  }

  // Reading inverts printing, for every map and every line order, exactly when no branch
  // name holds whitespace. Git itself forbids only ASCII whitespace in a branch name, so a
  // branch named with U+00A0 is lost or renamed by the observation.
  lemma ListingRoundTrip(refs: Refs, order: seq<string>)
    requires IsOrder(order, refs) && Listable(refs)
    ensures Parse(Listing(refs, order)) == refs <==> SpaceFree(refs)
  {
    if SpaceFree(refs) {
      ParseOfSpaceFree(refs, order);
    }
  }

  // What the twin reads of a repository's branches, which Git lists in the order of their names.
  function Reading(refs: Refs): Refs {
    Parse(Listing(refs, SortedKeys(refs.Keys)))
  }

  lemma ReadingIsWhole(refs: Refs)
    requires Listable(refs)
    ensures Reading(refs) == refs <==> SpaceFree(refs)
  {
    var order := SortedKeys(refs.Keys);
    SortedDistinct(order);
    ListingRoundTrip(refs, order);
    hide *;
  }

  // A one-branch repository whose only branch the listing loses.
  lemma NoBreakSpaceIsLost()
    ensures var refs := map["a\U{00A0}b" := "c0"];
            Listable(refs) && Parse(Listing(refs, ["a\U{00A0}b"])) != refs
  {
    var name := "a\U{00A0}b";
    assert name[1] == '\U{00A0}' && !NoSpace(name);
    var refs := map[name := "c0"];
    assert name in refs;
    ListingRoundTrip(refs, [name]);
  }
}
