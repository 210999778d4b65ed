/** Trimming of names and topics. */
module Text {

  /** White space as Unicode defines it. */
  predicate IsSpace(c: char) {
    || 9 <= c as int <= 13 || c == ' ' || c as int == 0x85 || c as int == 0xA0 || c as int == 0x1680
    || 0x2000 <= c as int <= 0x200A || c as int == 0x2028 || c as int == 0x2029 || c as int == 0x202F
    || c as int == 0x205F || c as int == 0x3000
  }

  /** Without the white space at either end. */
  function TrimSpace(s: string): (r: string)
    ensures |r| <= |s| && (r != "" ==> !IsSpace(r[0]) && !IsSpace(r[|r| - 1]))
  {
    if s == "" then s
    else if IsSpace(s[0]) then TrimSpace(s[1..])
    else if IsSpace(s[|s| - 1]) then TrimSpace(s[..|s| - 1])
    else s
  }

  predicate IsBlank(s: string) {
    TrimSpace(s) == ""
  }

  /** Trimming twice is trimming once. */
  lemma TrimIdempotent(s: string)
    ensures TrimSpace(TrimSpace(s)) == TrimSpace(s)
  {
    var t := TrimSpace(s);
    assert t != "" ==> !IsSpace(t[0]);
  }

  // ---- What trimming is ----

  predicate OnlySpace(s: string) {
    forall c :: c in s ==> IsSpace(c)
  }

  /** No white space at either end. */
  predicate Neat(s: string) {
    s != "" ==> !IsSpace(s[0]) && !IsSpace(s[|s| - 1])
  }

  /** The text is the name with nothing but white space around it. */
  ghost predicate Padded(s: string, name: string) {
    exists lead, trail :: OnlySpace(lead) && OnlySpace(trail) && s == lead + name + trail
  }

  /** Trimming takes away white space at the ends, and nothing else. */
  lemma {:induction false} TrimmingSplits(s: string) returns (lead: string, trail: string)
    ensures s == lead + TrimSpace(s) + trail && OnlySpace(lead) && OnlySpace(trail)
    ensures Neat(TrimSpace(s))
    decreases |s|
  {
    if s == "" {
      lead, trail := "", "";
    } else if IsSpace(s[0]) {
      lead, trail := TrimmingSplits(s[1..]);
      assert s == [s[0]] + s[1..];
      lead := [s[0]] + lead;
    } else if IsSpace(s[|s| - 1]) {
      lead, trail := TrimmingSplits(s[..|s| - 1]);
      assert s == s[..|s| - 1] + [s[|s| - 1]];
      trail := trail + [s[|s| - 1]];
    } else {
      lead, trail := "", "";
      assert s == "" + s + "";
    }
  }

  /** There is only one way to do that. */
  lemma {:induction false} TrimmingIsUnique(lead: string, name: string, trail: string)
    requires OnlySpace(lead) && OnlySpace(trail) && Neat(name)
    ensures TrimSpace(lead + name + trail) == name
    decreases |lead| + |trail|
  {
    var s := lead + name + trail;
    if lead != "" {
      assert s[0] == lead[0] && lead[0] in lead;
      assert s[1..] == lead[1..] + name + trail;
      TrimmingIsUnique(lead[1..], name, trail);
    } else if trail != "" {
      var last := |trail| - 1;
      assert s[|s| - 1] == trail[last] && trail[last] in trail;
      assert s[..|s| - 1] == lead + name + trail[..last];
      if name == "" {
        assert s == trail;
        SpaceIsTrimmedAway(trail);
      } else {
        assert s[0] == name[0];
        TrimmingIsUnique(lead, name, trail[..last]);
      }
    } else {
      assert s == name;
    }
  }

  lemma {:induction false} SpaceIsTrimmedAway(s: string)
    requires OnlySpace(s)
    ensures TrimSpace(s) == ""
    decreases |s|
  {
    if s != "" {
      assert s[0] in s;
      SpaceIsTrimmedAway(s[1..]);
    }
  }

  lemma NeatIsTrimmed(s: string)
    requires Neat(s)
    ensures TrimSpace(s) == s
  {
    assert "" + s + "" == s;
    TrimmingIsUnique("", s, "");
  }

  /** What is left is the name exactly when the text is the name padded. */
  lemma TrimmingExactly(s: string, name: string)
    ensures TrimSpace(s) == name <==> Neat(name) && Padded(s, name)
  {
    if TrimSpace(s) == name {
      var lead, trail := TrimmingSplits(s);
    }
    if Neat(name) && Padded(s, name) {
      var lead, trail :| OnlySpace(lead) && OnlySpace(trail) && s == lead + name + trail;
      TrimmingIsUnique(lead, name, trail);
    }
  }

  /** Blank is: nothing but white space. */
  lemma BlankIsOnlySpace(s: string)
    ensures IsBlank(s) <==> OnlySpace(s)
  {
    if IsBlank(s) {
      var lead, trail := TrimmingSplits(s);
    } else if OnlySpace(s) {
      SpaceIsTrimmedAway(s);
    }
  }
}
