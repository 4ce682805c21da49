/** Model of the sample tool: a named capability whose one operation
    returns its query with the characters in reverse order. */
module CustomTool {

  /** The name a tool carries when it is built without one. */
  const DefaultName: string := "CustomSearchTool"

  /** The tool as a record: the name an external dispatcher looks it up by.
      Its operation is `Use`, a pure function of the query. */
  datatype CustomSearchTool = CustomSearchTool(name: string)
  {
    /** The tool's operation: the slice `query[::-1]`, i.e. the character
        at position i of the result is the one at position |query|-1-i.
        Total: there is no query it rejects. */
    function Use(query: string): (result: string)
      ensures result == Reversed(query)
    {
      var r := seq(|query|, i requires 0 <= i < |query| => query[|query| - 1 - i]);
      ReversedMatchesSlice(query, r);
      r
    }
  }

  /** Building a tool stores the given name, which defaults to `DefaultName`. */
  function NewTool(name: string := DefaultName): (t: CustomSearchTool)
    ensures t.name == name
    ensures t.Use("") == ""
  {
    CustomSearchTool(name)
  }

  /** Reference definition of reversal, independent of indexing:
      the first character goes last. */
  function Reversed(s: string): string
    decreases |s|
  {
    if s == [] then [] else Reversed(s[1..]) + [s[0]]
  }

  /** Reversal keeps the length and mirrors every index. */
  lemma {:induction false} ReversedIndex(s: string)
    ensures |Reversed(s)| == |s|
    ensures forall i :: 0 <= i < |s| ==> Reversed(s)[i] == s[|s| - 1 - i]
  {
    if s != [] {
      ReversedIndex(s[1..]);
      var r := Reversed(s);
      assert r == Reversed(s[1..]) + [s[0]];
      forall i | 0 <= i < |s|
        ensures r[i] == s[|s| - 1 - i]
      {
        if i < |s| - 1 {
          assert r[i] == Reversed(s[1..])[i] == s[1..][|s| - 2 - i];
        }
      }
    }
  }

  /** Any sequence that mirrors `s` index by index is its reversal. */
  lemma ReversedMatchesSlice(s: string, r: string)
    requires |r| == |s|
    requires forall i :: 0 <= i < |s| ==> r[i] == s[|s| - 1 - i]
    ensures r == Reversed(s)
  {
    ReversedIndex(s);
  }

  /** Reversing a concatenation reverses the parts and swaps them. */
  lemma {:induction false} ReversedAppend(a: string, b: string)
    ensures Reversed(a + b) == Reversed(b) + Reversed(a)
  {
    if a == [] {
      assert a + b == b;
    } else {
      assert (a + b)[1..] == a[1..] + b;
      assert (a + b)[0] == a[0];
      ReversedAppend(a[1..], b);
    }
  }

  /** Reversing twice gives back the original. */
  lemma {:induction false} ReversedInvolution(s: string)
    ensures Reversed(Reversed(s)) == s
  {
    if s != [] {
      ReversedInvolution(s[1..]);
      ReversedAppend(Reversed(s[1..]), [s[0]]);
      assert Reversed([s[0]]) == [s[0]] by {
        assert [s[0]][1..] == [];
      }
      assert [s[0]] + s[1..] == s;
    }
  }

  /** Using a tool keeps the query's length, mirrors its characters, and
      using it again restores the query. */
  lemma UseProperties(t: CustomSearchTool, query: string)
    ensures |t.Use(query)| == |query|
    ensures forall i :: 0 <= i < |query| ==> t.Use(query)[i] == query[|query| - 1 - i]
    ensures t.Use(t.Use(query)) == query
  {
    ReversedIndex(query);
    ReversedInvolution(query);
  }

  /** The usage example: a tool built without a name is called
      "CustomSearchTool" and turns "Example query" into "yreuq elpmaxE". */
  lemma UseExample()
    ensures NewTool().name == "CustomSearchTool"
    ensures NewTool().Use("Example query") == "yreuq elpmaxE"
  {
    var q := "Example query";
    var r := seq(|q|, i requires 0 <= i < |q| => q[|q| - 1 - i]);
    assert r == "yreuq elpmaxE";
    ReversedMatchesSlice(q, r);
  }
}
