/**
 * The `Roles:` line of the full user-info embed: which of a member's roles
 * are listed, in which order, and how a long list is cut short
 * (`trimRoles` and `MAX_ROLES_TO_DISPLAY` in getUserInfoEmbed.ts).
 */
module Roles {
  import opened Strings
  import opened Sequences

  /** At most this many role mentions are written out. */
  const MaxRolesToDisplay: nat := 15

  /** A guild role as the embed sees it: its snowflake id and its position in the role list. */
  datatype Role = Role(id: string, position: int)

  /**
   * `trimRoles`: the mentions joined with ", "; beyond the limit only the
   * first ones are written, followed by how many were left out.
   */
  function TrimRoles(mentions: seq<string>): string
  {
    if |mentions| > MaxRolesToDisplay then
      Join(mentions[..MaxRolesToDisplay], ", ") + ", and " + NatToString(|mentions| - MaxRolesToDisplay) + " more roles"
    else
      Join(mentions, ", ")
  }

  /** Up to the limit, every mention is shown and nothing is appended. */
  lemma TrimRolesShort(mentions: seq<string>)
    requires |mentions| <= MaxRolesToDisplay
    ensures TrimRoles(mentions) == Join(mentions, ", ")
  {
  }

  /**
   * Beyond the limit the first mentions are shown, then ", and ", then a
   * number that reads back as the count of the rest, then " more roles".
   */
  lemma TrimRolesLong(mentions: seq<string>)
    requires |mentions| > MaxRolesToDisplay
    ensures TrimRoles(mentions)
      == Join(mentions[..MaxRolesToDisplay], ", ") + ", and " + NatToString(|mentions| - MaxRolesToDisplay) + " more roles"
    ensures DigitsValue(NatToString(|mentions| - MaxRolesToDisplay)) == |mentions| - MaxRolesToDisplay
  {
    var hidden := |mentions| - MaxRolesToDisplay;
    NatToStringValue(hidden);
    assert DigitsValue(NatToString(hidden)) == hidden;
  }

  /**
   * The mentions after the limit never reach the text: two lists of the
   * same length that agree on their first mentions render alike.
   */
  lemma TrimRolesIgnoresHidden(a: seq<string>, b: seq<string>)
    requires |a| == |b|
    requires a[..Min(MaxRolesToDisplay, |a|)] == b[..Min(MaxRolesToDisplay, |b|)]
    ensures TrimRoles(a) == TrimRoles(b)
  {
    if |a| <= MaxRolesToDisplay {
      assert a == a[..|a|] && b == b[..|b|];
    }
  }

  /** The mention of a role, `<@&id>`. */
  function Mention(id: string): string
  {
    "<@&" + id + ">"
  }

  /**
   * The mentions of the roles, in order: each one opens with `<@&`, closes
   * with `>`, and what lies between reads back as its role's id.
   */
  function Mentions(roles: seq<Role>): (r: seq<string>)
    ensures |r| == |roles|
    ensures forall i :: 0 <= i < |r| ==> r[i] == Mention(roles[i].id)
    ensures forall i :: 0 <= i < |r| ==>
      && |r[i]| == |roles[i].id| + 4
      && r[i][..3] == "<@&" && r[i][|r[i]| - 1] == '>'
      && r[i][3..|r[i]| - 1] == roles[i].id
  {
    seq(|roles|, i requires 0 <= i < |roles| => Mention(roles[i].id))
  }

  lemma MentionHasOneOpening(id: string)
    requires '<' !in id
    ensures CountChar('<', Mention(id)) == 1
  {
    CountCharAppend('<', "<@&" + id, ">");
    CountCharAppend('<', "<@&", id);
    CountCharAbsent('<', id);
  }

  /** Every mention holds one '<' when no role id does. */
  lemma MentionsOpenOnce(roles: seq<Role>)
    requires forall i :: 0 <= i < |roles| ==> '<' !in roles[i].id
    ensures forall i :: 0 <= i < |Mentions(roles)| ==> CountChar('<', Mentions(roles)[i]) == 1
  {
    forall i | 0 <= i < |roles| ensures CountChar('<', Mentions(roles)[i]) == 1 {
      MentionHasOneOpening(roles[i].id);
    }
  }

  /**
   * Counting mentions by their opening '<': the text holds exactly as many
   * mentions as the smaller of the limit and the number of roles.
   */
  lemma {:induction false} TrimRolesMentionCount(roles: seq<Role>)
    requires forall i :: 0 <= i < |roles| ==> '<' !in roles[i].id
    ensures CountChar('<', TrimRoles(Mentions(roles))) == Min(MaxRolesToDisplay, |roles|)
  {
    var ms := Mentions(roles);
    MentionsOpenOnce(roles);
    assert '<' !in ", ";
    if |ms| > MaxRolesToDisplay {
      var shown := ms[..MaxRolesToDisplay];
      var count := NatToString(|ms| - MaxRolesToDisplay);
      CountCharJoin('<', shown, ", ");
      assert '<' !in count;
      CountCharAbsent('<', ", and ");
      CountCharAbsent('<', count);
      CountCharAbsent('<', " more roles");
      CountCharAppend('<', Join(shown, ", "), ", and ");
      CountCharAppend('<', Join(shown, ", ") + ", and ", count);
      CountCharAppend('<', Join(shown, ", ") + ", and " + count, " more roles");
      TrimRolesLong(ms);
    } else {
      CountCharJoin('<', ms, ", ");
      TrimRolesShort(ms);
    }
  }

  /** The roles listed for a member, before they are written as mentions. */
  function DisplayedRoles(roles: seq<Role>, guildId: string): seq<Role>
  {
    var kept := Filter(roles, (x: Role) => x.id != guildId);
    SortDesc(kept, (x: Role) => x.position)
  }

  /**
   * The roles listed are every role except the one whose id is the guild's
   * (the @everyone role), each as often as the member has it, by position
   * from highest to lowest; the order of equal positions is unspecified.
   */
  lemma DisplayedRolesSpec(roles: seq<Role>, guildId: string)
    ensures var shown := DisplayedRoles(roles, guildId);
      && (forall i :: 0 <= i < |shown| ==> shown[i].id != guildId)
      && (forall x :: multiset(shown)[x] == if x.id == guildId then 0 else multiset(roles)[x])
      && (forall i, j :: 0 <= i < j < |shown| ==> shown[i].position >= shown[j].position)
  {
    var keep := (x: Role) => x.id != guildId;
    var kept := Filter(roles, keep);
    FilterMultiset(roles, keep);
    var byPosition := (x: Role) => x.position;
    var sorted := SortDesc(kept, byPosition);
    SortDescPermutes(kept, byPosition);
    assert sorted == DisplayedRoles(roles, guildId);
    forall i | 0 <= i < |sorted| ensures sorted[i].id != guildId {
      assert sorted[i] in multiset(kept);
    }
  }

  /**
   * The text after the line break of the roles line: `Roles: ` and the
   * trimmed mentions, or nothing when no role is left to show.
   */
  function RolesText(roles: seq<Role>, guildId: string): string
  {
    var shown := DisplayedRoles(roles, guildId);
    if |shown| > 0 then "Roles: " + TrimRoles(Mentions(shown)) else ""
  }

  /** The roles text is empty exactly when the member has no role besides the guild's own. */
  lemma RolesTextSpec(roles: seq<Role>, guildId: string)
    ensures RolesText(roles, guildId) == "" <==> forall i :: 0 <= i < |roles| ==> roles[i].id == guildId
    ensures RolesText(roles, guildId) != "" ==>
      var shown := DisplayedRoles(roles, guildId);
      && |shown| > 0
      && RolesText(roles, guildId) == "Roles: " + TrimRoles(Mentions(shown))
  {
    var shown := DisplayedRoles(roles, guildId);
    DisplayedRolesSpec(roles, guildId);
    if |shown| > 0 {
      assert shown[0] in multiset(shown);
      assert shown[0] in roles;
    }
    if exists i :: 0 <= i < |roles| && roles[i].id != guildId {
      var i :| 0 <= i < |roles| && roles[i].id != guildId;
      assert roles[i] in multiset(roles);
      assert roles[i] in multiset(shown);
    }
  }
}
