/** The allow-list: which messages are exempt from link blocking
    (`is_allowed`, bot.py:68-78) and how the `allow` command reads its
    arguments and edits an ID set (bot.py:198-211). */
module AllowList {
  import opened Wrappers
  import opened Text

  /** What the author of a message is to the guild: a member, with the IDs of
      the roles they hold (`author.roles`), or a user who is not a member and
      so has no roles to check. */
  datatype Membership = Member(roles: seq<nat>) | NotMember

  /** `{r.id for r in author.roles}` */
  function RoleIds(roles: seq<nat>): (ids: set<nat>)
    ensures forall r :: r in ids <==> r in roles
  {
    set r | r in roles
  }

  /** `is_allowed`: exempt when the channel is allowed, or else when the
      author is a member holding an allowed role. */
  function IsAllowed(channel: nat, author: Membership, allowedChannels: set<nat>, allowedRoles: set<nat>): (r: bool)
    ensures r <==> (channel in allowedChannels ||
      (author.Member? && exists i :: 0 <= i < |author.roles| && author.roles[i] in allowedRoles))
  {
    if channel in allowedChannels then true
    else match author
      case Member(roles) =>
        var common := RoleIds(roles) * allowedRoles;
        assert common != {} <==> exists i :: 0 <= i < |roles| && roles[i] in allowedRoles by {
          if common != {} {
            var r :| r in common;
            assert r in roles;
          }
          if exists i :: 0 <= i < |roles| && roles[i] in allowedRoles {
            var i :| 0 <= i < |roles| && roles[i] in allowedRoles;
            assert roles[i] in common;
          }
        }
        common != {}
      case NotMember => false
  }

  /** Growing the allow-lists never takes an exemption away. */
  lemma AllowedMonotone(channel: nat, author: Membership, c1: set<nat>, r1: set<nat>, c2: set<nat>, r2: set<nat>)
    requires c1 <= c2 && r1 <= r2
    requires IsAllowed(channel, author, c1, r1)
    ensures IsAllowed(channel, author, c2, r2)
  {
  }

  /** The kind of ID set `allow` edits (its `type` argument). */
  datatype AllowKind = Channels | Roles

  /** `type.lower().strip()` compared with "channel" and "role". */
  function ParseKind(kind: string): (r: Option<AllowKind>)
    ensures r == Some(Channels) <==> Strip(StrSpace, Lower(kind)) == "channel"
    ensures r == Some(Roles) <==> Strip(StrSpace, Lower(kind)) == "role"
  {
    var k := Strip(StrSpace, Lower(kind));
    if k == "channel" then Some(Channels)
    else if k == "role" then Some(Roles)
    else None
  }

  /** `to_id`: `int(x) if x and x.isdigit() else None`. */
  function ToId(x: Option<string>): (r: Option<nat>)
    ensures r.Some? <==> x.Some? && IsDigitString(x.value)
  {
    if x.Some? && IsDigitString(x.value) then Some(ParseNat(x.value)) else None
  }

  /** `if add_id: S.add(add_id)` then
      `if rem_id and rem_id in S: S.remove(rem_id)`: `None` and 0 are ignored,
      the addition comes first, and removing an absent ID changes nothing. */
  function EditSet(ids: set<nat>, addId: Option<nat>, remId: Option<nat>): (r: set<nat>)
    ensures forall n :: n in r <==>
      (n in ids || (addId == Some(n) && n != 0)) && !(remId == Some(n) && n != 0)
  {
    var added := if addId.Some? && addId.value != 0 then ids + {addId.value} else ids;
    if remId.Some? && remId.value != 0 && remId.value in added then added - {remId.value} else added
  }

  // ---------------------------------------------------------------------------
  // Properties

  /** An ID written in decimal is read back by `to_id`. */
  lemma ToIdRoundTrip(n: nat)
    ensures ToId(Some(ShowNat(n))) == Some(n)
  {
    ParseShowNat(n);
  }

  /** `allow add:X` followed by `allow remove:X` leaves a set without X, and
      restores it when X was not there before. */
  lemma AddThenRemove(ids: set<nat>, n: nat)
    requires n != 0
    ensures n !in EditSet(EditSet(ids, Some(n), None), None, Some(n))
    ensures n !in ids ==> EditSet(EditSet(ids, Some(n), None), None, Some(n)) == ids
  {
  }

  /** The same ID given to both `add` and `remove` ends up absent. */
  lemma AddAndRemoveSameId(ids: set<nat>, n: nat)
    requires n != 0
    ensures EditSet(ids, Some(n), Some(n)) == ids - {n}
  {
  }

  /** The kind is read ignoring letter case and surrounding whitespace. */
  lemma ParseKindPadded(a: string, word: string, b: string)
    requires AllSpace(StrSpace, a) && AllSpace(StrSpace, b)
    requires Lower(word) == "channel" || Lower(word) == "role"
    ensures ParseKind(a + word + b) == if Lower(word) == "channel" then Some(Channels) else Some(Roles)
  {
    var w := Lower(word);
    assert |w| > 0 && !IsSpace(w[0]) && !IsSpace(w[|w| - 1]) by {
      assert w == "channel" || w == "role";
    }
    assert Strip(StrSpace, Lower(a + word + b)) == w by {
      LowerConcat(a, word, b);
      LowerKeepsSpace(a);
      LowerKeepsSpace(b);
      StripPadded(StrSpace, Lower(a), w, Lower(b));
    }
    assert "role" != "channel";
  }

  lemma LowerConcat(a: string, w: string, b: string)
    ensures Lower(a + w + b) == Lower(a) + Lower(w) + Lower(b)
  {
    var l := Lower(a + w + b);
    var r := Lower(a) + Lower(w) + Lower(b);
    assert |l| == |r|;
    forall i | 0 <= i < |l| ensures l[i] == r[i] {
      if i < |a| {
      } else if i < |a| + |w| {
        assert (a + w + b)[i] == w[i - |a|];
      } else {
        assert (a + w + b)[i] == b[i - |a| - |w|];
      }
    }
  }

  lemma LowerKeepsSpace(s: string)
    requires AllSpace(StrSpace, s)
    ensures AllSpace(StrSpace, Lower(s))
  {
  }
}
