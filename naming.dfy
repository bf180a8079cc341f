/**
 * The two pure pieces of finalizing a game: the slug that names the new
 * channel, and the permission overwrites that decide who may see it.
 */
module Naming {
  import opened Wrappers

  /** A chat user identifier. */
  type UserId = int

  predicate IsUpper(c: char) {
    'A' <= c <= 'Z'
  }

  /** ASCII case folding of one character. */
  function LowerChar(c: char): (r: char)
    ensures IsUpper(c) ==> r as int == c as int + 32
    ensures !IsUpper(c) ==> r == c
    ensures !IsUpper(r)
  {
    if IsUpper(c) then (c as int + 32) as char else c
  }

  /** The lowercased string: every upper-case ASCII letter folded, nothing else touched. */
  function Lower(s: string): (r: string)
    ensures |r| == |s|
    ensures forall i :: 0 <= i < |s| ==> !IsUpper(r[i])
    ensures forall i :: 0 <= i < |s| && !IsUpper(s[i]) ==> r[i] == s[i]
    ensures forall i :: 0 <= i < |s| && IsUpper(s[i]) ==> r[i] as int == s[i] as int + 32
  {
    seq(|s|, i requires 0 <= i < |s| => LowerChar(s[i]))
  }

  /** Lowering twice is lowering once. */
  lemma LowerIdempotent(s: string)
    ensures Lower(Lower(s)) == Lower(s)
  {
  }

  /**
   * The slice `s[-2:]`: the last two characters of `s`, or all of `s`
   * when it is shorter than two.
   */
  function Last2(s: string): (r: string)
    ensures |r| == if |s| >= 2 then 2 else |s|
    ensures s == s[..|s| - |r|] + r
  {
    if |s| >= 2 then s[|s| - 2..] else s
  }

  /**
   * The name of the channel created for a finalized game:
   * "gm", the last two characters of the game id, "-", the lowercased
   * continent, "-", the lowercased codename.
   */
  function ChannelName(gameId: string, continent: string, codename: string): (r: string)
    ensures |r| == 4 + |Last2(gameId)| + |continent| + |codename|
    ensures var n, m := |Last2(gameId)|, |continent|;
      && r[..2] == "gm"
      && r[2..2 + n] == Last2(gameId)
      && r[2 + n] == '-'
      && r[3 + n..3 + n + m] == Lower(continent)
      && r[3 + n + m] == '-'
      && r[4 + n + m..] == Lower(codename)
  {
    SlugLayout(Last2(gameId), Lower(continent), Lower(codename));
    "gm" + Last2(gameId) + "-" + Lower(continent) + "-" + Lower(codename)
  }

  /** Where each part sits in "gm" + a + "-" + b + "-" + c. */
  lemma SlugLayout(a: string, b: string, c: string)
    ensures var r, n, m := "gm" + a + "-" + b + "-" + c, |a|, |b|;
      && |r| == 4 + n + m + |c|
      && r[..2] == "gm"
      && r[2..2 + n] == a
      && r[2 + n] == '-'
      && r[3 + n..3 + n + m] == b
      && r[3 + n + m] == '-'
      && r[4 + n + m..] == c
  {
    var tail := "-" + c;
    var middle := "-" + b + tail;
    assert "gm" + a + "-" + b + "-" + c == ("gm" + a) + middle;
    SplitAt("gm" + a, middle);
    SplitAt("gm", a);
    SplitAt("-" + b, tail);
    SplitAt("-", b);
  }

  /** The two halves of a concatenation. */
  lemma SplitAt(a: string, b: string)
    ensures (a + b)[..|a|] == a && (a + b)[|a|..] == b
  {
  }

  /** Only the case-folded continent and codename reach the name. */
  lemma ChannelNameIgnoresCase(gameId: string, continent: string, codename: string)
    ensures ChannelName(gameId, continent, codename)
         == ChannelName(gameId, Lower(continent), Lower(codename))
  {
    LowerIdempotent(continent);
    LowerIdempotent(codename);
  }

  /** With continent and codename fixed, two game ids give the same name exactly when their last two characters agree. */
  lemma ChannelNameDeterminedByLast2(g1: string, g2: string, continent: string, codename: string)
    ensures ChannelName(g1, continent, codename) == ChannelName(g2, continent, codename)
        <==> Last2(g1) == Last2(g2)
  {
    var r1, r2 := ChannelName(g1, continent, codename), ChannelName(g2, continent, codename);
    if r1 == r2 {
      assert |Last2(g1)| == |Last2(g2)|;
      assert Last2(g1) == r1[2..2 + |Last2(g1)|];
    }
  }

  /** The example of the command's own help text. */
  lemma ChannelNameExample()
    ensures ChannelName("2053", "Europe", "Eagle") == "gm53-europe-eagle"
  {
    assert Last2("2053") == "53";
    assert Lower("Europe") == "europe" by {
      forall i | 0 <= i < 6 ensures Lower("Europe")[i] == "europe"[i] {
      }
    }
    assert Lower("Eagle") == "eagle" by {
      forall i | 0 <= i < 5 ensures Lower("Eagle")[i] == "eagle"[i] {
      }
    }
    assert "gm" + "53" + "-" + "europe" + "-" + "eagle" == "gm53-europe-eagle";
  }

  /** Who a permission overwrite applies to: the server's default role or one member. */
  datatype Principal = DefaultRole | Member(id: UserId)

  /** A permission overwrite; None leaves the permission as inherited. */
  datatype Overwrite = Overwrite(readMessages: Option<bool>, sendMessages: Option<bool>)

  /** The users an overwrite map explicitly lets read the channel. */
  function GrantedAccess(overwrites: map<Principal, Overwrite>): set<UserId>
  {
    set p | p in overwrites && p.Member? && overwrites[p].readMessages == Some(true) :: p.id
  }

  /**
   * The overwrites of the new channel: the default role may not read it,
   * and every opted-in user may read and send.
   */
  function Overwrites(optedIn: set<UserId>): (r: map<Principal, Overwrite>)
    ensures r.Keys == {DefaultRole} + set u | u in optedIn :: Member(u)
    ensures r[DefaultRole] == Overwrite(Some(false), None)
    ensures forall u :: u in optedIn ==> r[Member(u)] == Overwrite(Some(true), Some(true))
    ensures GrantedAccess(r) == optedIn
  {
    var members := map u | u in optedIn :: Member(u) := Overwrite(Some(true), Some(true));
    var r := members[DefaultRole := Overwrite(Some(false), None)];
    forall u | u in optedIn
      ensures u in GrantedAccess(r)
    {
      var p := Member(u);
      assert p in r && p.Member? && r[p].readMessages == Some(true);
    }
    r
  }
}
