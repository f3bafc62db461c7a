/** The MG-RAST download address and accession check shared by lib/gasicBatch/MetaFile.py and
    lib/gasicBatch/objects.py: `re.match` of `((mgm)*\d{7}\.\d)`, anchored at the start
    of the ID only, where `\d` is an ASCII digit. */
module MgRastId {
  import opened Wrappers
  import opened PyStr

  /** The MG-RAST download API. */
  const ApiBase: string := "http://api.metagenomics.anl.gov/1/download/"

  /** The ValueError of an id that is not an accession. */
  function NotMgRastId(id: string): Error
  {
    ValueError("id: \"" + id + "\" is not in correct format")
  }

  /** How many "mgm" repetitions open `s`, as the greedy `(mgm)*` takes them. */
  function MgmCount(s: string): nat
    decreases |s|
  {
    if |s| >= 3 && s[..3] == "mgm" then 1 + MgmCount(s[3..]) else 0
  }

  /** `s` opens with `j` repetitions of "mgm". */
  predicate MgmPrefix(s: string, j: nat)
  {
    3 * j <= |s| && forall t :: 0 <= t < j ==> s[3 * t..3 * t + 3] == "mgm"
  }

  /** Seven digits, a dot and a digit start at index `k`. */
  predicate AccessionAt(s: string, k: nat)
  {
    k + 9 <= |s| && (forall i :: k <= i < k + 7 ==> IsDigit(s[i])) && s[k + 7] == '.' && IsDigit(s[k + 8])
  }

  /** `reC.match(s)`: the matched text, group 1, or None when the ID does not match. */
  function MatchId(s: string): (g: Option<string>)
    ensures g.Some? ==> |g.value| >= 9 && g.value <= s
  {
    var k := 3 * MgmCount(s);
    if AccessionAt(s, k) then Some(s[..k + 9]) else None
  }

  /** The greedy count is a prefix of repetitions that cannot be extended. */
  lemma {:induction false} MgmCountMaximal(s: string)
    ensures MgmPrefix(s, MgmCount(s))
    ensures 3 * MgmCount(s) + 3 > |s| || s[3 * MgmCount(s)..3 * MgmCount(s) + 3] != "mgm"
    decreases |s|
  {
    if |s| >= 3 && s[..3] == "mgm" {
      var r := s[3..];
      MgmCountMaximal(r);
      var c := MgmCount(r);
      forall t | 0 <= t < c + 1 ensures s[3 * t..3 * t + 3] == "mgm" {
        if t > 0 {
          assert s[3 * t..3 * t + 3] == r[3 * (t - 1)..3 * (t - 1) + 3];
        }
      }
      if 3 * c + 6 <= |s| {
        assert s[3 * (c + 1)..3 * (c + 1) + 3] == r[3 * c..3 * c + 3];
      }
    }
  }

  /** Backtracking cannot help: any split into repetitions and an accession is the
      greedy one. */
  lemma OnlyGreedySplit(s: string, j: nat)
    requires MgmPrefix(s, j) && AccessionAt(s, 3 * j)
    ensures j == MgmCount(s)
  {
    var c := MgmCount(s);
    MgmCountMaximal(s);
    if j < c {
      MgmAt(s, c, j);
    } else if j > c {
      MgmAt(s, j, c);
    }
  }

  lemma MgmAt(s: string, j: nat, t: nat)
    requires MgmPrefix(s, j) && t < j
    ensures 3 * t + 3 <= |s| && s[3 * t..3 * t + 3] == "mgm" && s[3 * t] == 'm'
  {
    assert s[3 * t] == s[3 * t..3 * t + 3][0];
  }

  /** The regex semantics: the ID matches exactly when some number of "mgm" is followed
      by seven digits, a dot and a digit, and group 1 is that text. */
  lemma MatchIdSpec(s: string)
    ensures MatchId(s).Some? <==> exists j: nat :: MgmPrefix(s, j) && AccessionAt(s, 3 * j)
    ensures forall j: nat :: MgmPrefix(s, j) && AccessionAt(s, 3 * j) ==> MatchId(s) == Some(s[..3 * j + 9])
  {
    MgmCountMaximal(s);
    forall j: nat | MgmPrefix(s, j) && AccessionAt(s, 3 * j) ensures MatchId(s) == Some(s[..3 * j + 9]) {
      OnlyGreedySplit(s, j);
    }
  }

  /** Text after the accession is ignored: group 1 drops it. */
  lemma MatchIgnoresSuffix(g: string, rest: string)
    requires MatchId(g) == Some(g)
    ensures MatchId(g + rest) == Some(g)
  {
    var j := MgmCount(g);
    MgmCountMaximal(g);
    var s := g + rest;
    assert |g| == 3 * j + 9;
    assert MgmPrefix(s, j) by {
      forall t | 0 <= t < j ensures s[3 * t..3 * t + 3] == "mgm" {
        assert s[3 * t..3 * t + 3] == g[3 * t..3 * t + 3];
      }
    }
    assert AccessionAt(s, 3 * j) by {
      forall i | 3 * j <= i < 3 * j + 9 ensures s[i] == g[i] { }
    }
    MatchIdSpec(s);
    assert s[..3 * j + 9] == g;
  }

  /** Group 1 of a match matches itself in full. */
  lemma MatchIdIdempotent(s: string)
    requires MatchId(s).Some?
    ensures MatchId(MatchId(s).value) == MatchId(s)
  {
    var g := MatchId(s).value;
    var j := MgmCount(s);
    MgmCountMaximal(s);
    assert |g| == 3 * j + 9;
    assert MgmPrefix(g, j) by {
      forall t | 0 <= t < j ensures g[3 * t..3 * t + 3] == "mgm" {
        assert g[3 * t..3 * t + 3] == s[3 * t..3 * t + 3];
      }
    }
    assert AccessionAt(g, 3 * j) by {
      forall i | 3 * j <= i < 3 * j + 9 ensures g[i] == s[i] { }
    }
    MatchIdSpec(g);
    assert g[..3 * j + 9] == g;
  }
}
