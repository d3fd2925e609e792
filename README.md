# User-info embed of the Utility plugin

This project models `getUserInfoEmbed`, the function that builds the embed
the Utility plugin posts about one user. The model covers the rules that
decide what goes into the embed:

- `trimRoles`: the role mentions joined with `", "`, cut to 15 with a
  `", and N more roles"` tail.
- The roles line: every role except the guild's own (@everyone), by
  position from highest to lowest, and an empty text when no role is left.
- The Cases field: hidden cases dropped, the rest newest first, at most 3
  written out as `Type (#n)` (a link when the case has a non-empty log
  message id, to the channel and message named by its `-`-separated pieces), the label `"Last 3 cases"` or `"Summary"`,
  and the total.
- The layout: no embed for an unknown user. In compact mode there is one
  user-information field, plus a "not on the server" note for a
  non-member. In full mode the fields are user information, then voice
  information, then the "Member information" warning, then Cases, each
  present under its own condition.

Modules:

- `Wrappers`: `Option`, for `null`/`undefined` and the `??` operator.
- `Strings`: the JavaScript string operations the function relies on
  (`join`, `split` on one character, `${n}` in a template, truthiness).
- `Sequences`: `filter`, and sorting into non-increasing order of a key.
  The source sorts in place; here sorting is a function returning the
  sorted permutation.
- `Roles`: `trimRoles` and the roles line.
- `Cases`: the case summary.
- `UserInfoEmbed`: the embed as datatypes, `EmbedFields` as the
  specification of the field list, and the method `GetUserInfoEmbed`,
  which pushes fields and lines one after another as the source does.

The resolved user, the member, the guild's channel cache and the stored
cases are parameters of `GetUserInfoEmbed`. The field values are modelled
as the lines they are made of, not as rendered text.

## Model

| member | source | states |
|---|---|---|
| Strings.Split | backend/src/plugins/Utility/functions/getUserInfoEmbed.ts:154 | `split` on one character gives at least one piece, and no piece contains the separator |
| Strings.SplitJoin | backend/src/plugins/Utility/functions/getUserInfoEmbed.ts:154 | joining the pieces of a split with the separator gives the original string back |
| Strings.SplitAfterPiece | backend/src/plugins/Utility/functions/getUserInfoEmbed.ts:154 | a separator-free prefix followed by the separator comes out as the first piece |
| Strings.SplitWhole | backend/src/plugins/Utility/functions/getUserInfoEmbed.ts:154 | a string without the separator splits into itself alone |
| Strings.JoinAppend | backend/src/plugins/Utility/functions/getUserInfoEmbed.ts:24 | joining two non-empty lists equals joining each and putting the separator between them |
| Strings.NatToString | backend/src/plugins/Utility/functions/getUserInfoEmbed.ts:24 | the decimal rendering of a count is non-empty, made only of digits, `"0"` for zero and without a leading zero otherwise |
| Strings.NatToStringValue | backend/src/plugins/Utility/functions/getUserInfoEmbed.ts:24 | the decimal rendering of a number reads back as that number |
| Sequences.Filter | backend/src/plugins/Utility/functions/getUserInfoEmbed.ts:104 | filtering never lengthens a list |
| Sequences.FilterMultiset | backend/src/plugins/Utility/functions/getUserInfoEmbed.ts:104 | filtering keeps every occurrence of each element that passes the test and none of the others |
| Sequences.FilterConcat | backend/src/plugins/Utility/functions/getUserInfoEmbed.ts:143 | filtering a concatenation concatenates the filtered parts |
| Sequences.Insert | backend/src/plugins/Utility/functions/getUserInfoEmbed.ts:105 | inserting adds one element, puts it or the old head first, and keeps a non-increasing list non-increasing |
| Sequences.InsertPermutes | backend/src/plugins/Utility/functions/getUserInfoEmbed.ts:105 | inserting adds exactly the new element to the old ones |
| Sequences.SortDesc | backend/src/plugins/Utility/functions/getUserInfoEmbed.ts:105 | the sorted list has the input's length and its keys never increase |
| Sequences.SortDescPermutes | backend/src/plugins/Utility/functions/getUserInfoEmbed.ts:105 | sorting neither loses nor adds elements |
| Roles.TrimRolesShort | backend/src/plugins/Utility/functions/getUserInfoEmbed.ts:20-25 | with at most 15 mentions, the text is the `", "`-join of all of them with no tail |
| Roles.TrimRolesLong | backend/src/plugins/Utility/functions/getUserInfoEmbed.ts:20-24 | with more than 15 mentions, the text is the join of the first 15, `", and "`, a number that reads back as the count of the rest, and `" more roles"` |
| Roles.TrimRolesIgnoresHidden | backend/src/plugins/Utility/functions/getUserInfoEmbed.ts:22-24 | mentions after the 15th never reach the text: two lists of equal length that agree on their first 15 give the same text |
| Roles.Mentions | backend/src/plugins/Utility/functions/getUserInfoEmbed.ts:113 | one mention per role, in order, each opening with `<@&` and closing with `>`, with the role's id read back from between them |
| Roles.MentionsOpenOnce | backend/src/plugins/Utility/functions/getUserInfoEmbed.ts:113 | when no role id contains `<`, every mention holds exactly one `<` |
| Roles.TrimRolesMentionCount | backend/src/plugins/Utility/functions/getUserInfoEmbed.ts:20-25 | when no role id contains `<`, the text holds exactly min(15, number of roles) mentions |
| Roles.DisplayedRolesSpec | backend/src/plugins/Utility/functions/getUserInfoEmbed.ts:104-105 | the listed roles are all of the member's roles except the one whose id is the guild's, each as often as the member has it, ordered by non-increasing position |
| Roles.RolesTextSpec | backend/src/plugins/Utility/functions/getUserInfoEmbed.ts:113 | the roles text is empty exactly when every role of the member is the guild's own; otherwise it is `"Roles: "` followed by the trimmed mentions of the listed roles |
| Cases.VisibleCases | backend/src/plugins/Utility/functions/getUserInfoEmbed.ts:143 | every kept case is a stored case that is not hidden |
| Cases.VisibleCasesCount | backend/src/plugins/Utility/functions/getUserInfoEmbed.ts:143 | every occurrence of a visible case is kept, and no hidden case |
| Cases.HiddenCaseIgnored | backend/src/plugins/Utility/functions/getUserInfoEmbed.ts:143 | inserting a hidden case anywhere leaves the visible cases unchanged |
| Cases.NewestFirst | backend/src/plugins/Utility/functions/getUserInfoEmbed.ts:146-148 | the ordered cases have the input's length and non-increasing creation times |
| Cases.NewestFirstPermutes | backend/src/plugins/Utility/functions/getUserInfoEmbed.ts:146-148 | ordering neither loses nor adds cases |
| Cases.ShownCasesAreVisibleNewestFirst | backend/src/plugins/Utility/functions/getUserInfoEmbed.ts:143-150 | the summary shows min(3, number of visible cases) cases, all visible stored cases, newest first |
| Cases.ShownCasesAreNewest | backend/src/plugins/Utility/functions/getUserInfoEmbed.ts:146-150 | the shown cases come from the visible ones, and no visible case left out is newer than any shown case |
| Cases.SummaryTextCaseNumber | backend/src/plugins/Utility/functions/getUserInfoEmbed.ts:151 | a case is written as its type, `" (#"`, a number that reads back as its case number, and `")"` |
| Cases.LogLinkOfChannelMessage | backend/src/plugins/Utility/functions/getUserInfoEmbed.ts:153-155 | a log message id `channel-message` links to that guild, channel and message |
| Cases.LogLinkReadsId | backend/src/plugins/Utility/functions/getUserInfoEmbed.ts:154-155 | in general the link's channel is the id up to its first `-`, and its message, when present, is the next piece, so channel, `-` and message form a prefix of the id that ends at the id's end or at a `-`; an id without `-` is all channel and has no message |
| Cases.Summarise | backend/src/plugins/Utility/functions/getUserInfoEmbed.ts:150-159 | a case is written as a link exactly when its log message id is non-empty, the link is the one read from that id, and its text is `Type (#n)` either way |
| Cases.SummariseChannelMessage | backend/src/plugins/Utility/functions/getUserInfoEmbed.ts:153-155 | a case whose log message id is `channel-message` is written as a link to that guild, channel and message |
| Cases.CaseSummaryOf | backend/src/plugins/Utility/functions/getUserInfoEmbed.ts:143-170 | there is a summary exactly when some case is not hidden; its total is the number of visible cases; it has min(3, total) entries, each the shown case of the same position written out; the label is `"Last 3 cases"` exactly when some visible case is not written out, and `"Summary"` exactly when all are |
| UserInfoEmbed.FullInfoLines | backend/src/plugins/Utility/functions/getUserInfoEmbed.ts:90-114 | the full user-information field has between 4 and 9 lines |
| UserInfoEmbed.FullInfoLinesFront | backend/src/plugins/Utility/functions/getUserInfoEmbed.ts:90-93 | the field starts with the id and username lines; the discriminator line is there exactly when the discriminator is not `"0"`; the display-name line is there when the display name is non-empty and absent otherwise |
| UserInfoEmbed.FullInfoLinesWithMember | backend/src/plugins/Utility/functions/getUserInfoEmbed.ts:94-114 | for a member, the field has the nickname line (defaulting to `*no nickname defined*`), the mention, creation and joined lines, and ends with the roles line |
| UserInfoEmbed.FullInfoLinesWithoutMember | backend/src/plugins/Utility/functions/getUserInfoEmbed.ts:94-103 | for a non-member, the field ends with the creation line and has no nickname, joined or roles line |
| UserInfoEmbed.VoiceChannelName | backend/src/plugins/Utility/functions/getUserInfoEmbed.ts:121 | there is a voice channel exactly when the member has a non-empty channel id that the guild's cache holds |
| UserInfoEmbed.VoiceLines | backend/src/plugins/Utility/functions/getUserInfoEmbed.ts:126-132 | at most five lines; the channel line is first when there is a channel and absent otherwise; each flag line is there exactly when its flag is set |
| UserInfoEmbed.EmbedFields | backend/src/plugins/Utility/functions/getUserInfoEmbed.ts:67-170 | an embed for a resolved user always has at least one field |
| UserInfoEmbed.CompactLayout | backend/src/plugins/Utility/functions/getUserInfoEmbed.ts:67-86 | compact mode gives exactly one field for a member, with the profile, creation and joined lines, and for a non-member a field with the profile and creation lines followed by the "not on the server" note |
| UserInfoEmbed.UserInformationName | backend/src/plugins/Utility/functions/getUserInfoEmbed.ts:69 | the user-information field is named "Bot information" for a bot and "User information" otherwise |
| UserInfoEmbed.CompactLayoutName | backend/src/plugins/Utility/functions/getUserInfoEmbed.ts:69-81 | in compact mode the first field is named "Bot information" or "User information", and a non-member's second field is the "!! NOTE !!" note |
| UserInfoEmbed.FullLayoutName | backend/src/plugins/Utility/functions/getUserInfoEmbed.ts:116-117 | in full mode the first field is named "Bot information" or "User information" |
| UserInfoEmbed.FullLayout | backend/src/plugins/Utility/functions/getUserInfoEmbed.ts:116-170 | full mode gives one to three fields; the first is the user-information field, and no later field is a user-information field or a note |
| UserInfoEmbed.FullLayoutWarning | backend/src/plugins/Utility/functions/getUserInfoEmbed.ts:136-141 | the "Member information" warning is there exactly when there is no member |
| UserInfoEmbed.FullLayoutVoice | backend/src/plugins/Utility/functions/getUserInfoEmbed.ts:121-134 | the voice field is there exactly for a member with a known voice channel, the mute flag or the deaf flag, and then it is second |
| UserInfoEmbed.FullLayoutCases | backend/src/plugins/Utility/functions/getUserInfoEmbed.ts:143-170 | the Cases field is there exactly when there is a case summary, and then it is last |
| UserInfoEmbed.CasesFieldPresence | backend/src/plugins/Utility/functions/getUserInfoEmbed.ts:67-170 | the embed has a Cases field exactly when it is not compact and some case is not hidden |
| UserInfoEmbed.PushCompactFields | backend/src/plugins/Utility/functions/getUserInfoEmbed.ts:67-86 | pushing the compact fields, including the `+=` onto the first field's value, gives the compact field list |
| UserInfoEmbed.PushFullInfoLines | backend/src/plugins/Utility/functions/getUserInfoEmbed.ts:90-114 | pushing the user-information lines one after another gives the full user-information field |
| UserInfoEmbed.PushFullFields | backend/src/plugins/Utility/functions/getUserInfoEmbed.ts:116-170 | pushing the full-mode fields one after another gives the full field list |
| UserInfoEmbed.GetUserInfoEmbed | backend/src/plugins/Utility/functions/getUserInfoEmbed.ts:27-172 | no embed exactly when the user did not resolve or resolved to the unknown-user placeholder; otherwise the author is marked bot or user, with the member's avatar when there is a member, and the fields are those of `EmbedFields` |

## Left out

- backend/src/plugins/ContextMenus/ContextMenuPlugin.ts is not part of this model. It is a plugin descriptor whose meaning (config overrides, permission levels, dependency order, lifecycle) lives in the `knub` framework, which is not part of this model.
- `resolveUser`, `resolveMember`, the case lookup `getByUserId`, `getPlugin` and `config.get()` are asynchronous calls. The model takes their results as parameters.
- Time zones and date formatting (`moment`, `inMemberTz`, `inGuildTz`) are not modelled. Neither are the rounded timestamps (`Math.round(... / 1000)`). The created and joined lines carry no time, so `requestMemberId` has no effect in the model.
- The exact text of each field is not modelled. It depends on `trimLines`, `trimEmptyLines`, `preEmbedPadding`, `messageLink`, `renderUsername` and the configured emojis, which are not part of this model. A field value is modelled as the list of its lines. A summary entry is modelled as its text and the message it links to. The joining of lines and entries with `"\n"` and `", "` is not modelled.
- Avatar URLs are not modelled. The author records only whether it is a bot and whose avatar it shows.
- The discord.js objects are reduced to the data the function reads. `voice.mute` and `voice.deaf` are taken as given flags, not derived from the server and self flags.
- Sorting is not done in place. `Sequences.SortDesc` returns a sorted permutation, and `sorter("position", "DESC")` is modelled as that sort on the position. The order of equal keys is not asserted. The case comparator never reports equality, so for cases with the same `created_at` the source does not fix an order either.
- `created_at` is modelled as an integer ordering key and `case_number` as a natural number. `CaseTypes[c.type]` is modelled as the case's type name, given as data.
