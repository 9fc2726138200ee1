# BhavOrg client: a verified model of the client logic

BhavOrg is an anonymous peer-support and mental-wellness web application. Its
React client signs people in three ways:

- with a username and password;
- with a username and a twelve-word recovery passphrase;
- by registering, after which the server issues a passphrase that the user must type back.

Behind those screens sit a feed of posts with likes, comments and one level of
replies, a post creation form with tags and trigger warnings, notifications,
avatars, and two directory pages (blog articles and communities) narrowed by
filters.

This project restates that client logic in Dafny and proves what it promises.
Stateful components (forms, dialogs, lists) become classes whose fields are the
component's state, and every event handler becomes a method. A back-end call is
not executed. Its result (`Service.Outcome`: success with a value, or failure
with an optional server message) is a parameter of the method that makes the
call. Pure helpers (validation, response normalisation, filters, the avatar
colour) become functions, and lemmas relate them.

| module | models |
|---|---|
| `Text` | the JavaScript string operations the handlers use: `trim`, `\s`, ASCII `toLowerCase`/`toUpperCase`, `includes`, `split(/\s+/)`, `split(" ")`/`join(" ")`, number printing, `message \|\| fallback` |
| `Sequences` | `filter`, `slice(0, n)`, `findIndex`, `find`, and the subsequence relation |
| `Service` | the outcome of a back-end call |
| `Session` | the authentication context (`useAuth`) and the stored token |
| `AuthDialog` | the container that switches between the three sign-in dialogs |
| `Login`, `PassphraseLogin`, `Register` | the three dialogs |
| `Passphrase` | the twelve-box passphrase entry shared by `PassphraseLogin` and `Register` |
| `FeedTypes`, `Posts` | the feed data model and the client part of the posts service |
| `Feed`, `PostView`, `PostForm`, `TagSelector` | the feed page, the post card, the creation form, the tag picker |
| `Comment`, `CommentSection`, `CommentForm` | comment normalisation, the comment list, the comment box |
| `Notifications`, `Avatar`, `Blog`, `Community` | the notification item, the generated avatar, the blog and community pages |

Two facts of the source shape the model:

- `Comment.tsx` computes the anonymity flag as `... || true`, so every comment is shown as "Anonymous". `Comment.DisplayName` states this.
- The registration check step and the passphrase login implement the same box-handling logic, written out twice with different names and different error fields. The logic is modelled once, in `Passphrase.WordGrid`, and each dialog adds its own error handling.

## Model

| member | source | states |
|---|---|---|
| `Text.Lower` | src/pages/Blog/BlogPage.tsx:168-171 | lower-casing keeps the length, maps each character on its own and leaves no capital letter |
| `Text.StartsWith` | src/components/common/TagSelector/TagSelector.tsx:107 | the prefix relation on strings |
| `Text.Contains` | src/components/common/TagSelector/TagSelector.tsx:107 | `includes`: the text holds the part at some position |
| `Text.Upper` | src/components/common/Avatar/Avatar.tsx:23 | upper-casing keeps the length, maps each character on its own and leaves no small letter |
| `Text.LowerSpaceFree` | src/components/features/Auth/Register/Register.tsx:431-432 | lowering a word neither adds nor removes a space |
| `Text.Trim` | src/components/features/Feed/CommentForm/CommentForm.tsx:31-35 | the trimmed text has no whitespace at either end, is empty exactly when the text is all whitespace, and is never longer |
| `Text.TrimNoEdge` | src/components/features/Feed/CommentForm/CommentForm.tsx:35 | trimming a text without edge whitespace changes nothing |
| `Text.TrimLower` | src/components/features/Auth/PassphraseLogin/PassphraseLogin.tsx:143 | trimming and lowering commute, so the order of the two in the phrase check does not matter |
| `Text.LeadingWord` | src/components/features/Auth/PassphraseLogin/PassphraseLogin.tsx:44 | the longest whitespace-free prefix: a prefix without whitespace, followed by whitespace or the end |
| `Text.Tokens` | src/components/features/Auth/PassphraseLogin/PassphraseLogin.tsx:44 | `split(/\s+/).filter(Boolean)` yields non-empty whitespace-free words, none when the text is all whitespace |
| `Text.TokensLower` | src/components/features/Auth/PassphraseLogin/PassphraseLogin.tsx:143 | the words of a lowered text are the lowered words of the text |
| `Text.TokensTrim` | src/components/features/Auth/PassphraseLogin/PassphraseLogin.tsx:143 | trimming a text keeps its words |
| `Text.TokensJoin` | src/components/features/Auth/Register/Register.tsx:387-401 | splitting a single-space join of words at whitespace gives the words back |
| `Text.SplitSpace` | src/components/features/Auth/Register/Register.tsx:114 | `split(" ")` gives at least one piece and no piece holds a space |
| `Text.JoinSpace` | src/components/features/Auth/PassphraseLogin/PassphraseLogin.tsx:127 | `join(" ")`: no words give "", one word gives itself, and otherwise the first word comes first, followed by a space |
| `Text.JoinSplit` | src/components/features/Auth/Register/Register.tsx:113-115 | joining the pieces of `split(" ")` with single spaces gives the text back |
| `Text.SplitJoin` | src/components/features/Auth/PassphraseLogin/PassphraseLogin.tsx:127 | splitting a join of space-free words gives the words back |
| `Text.JoinInjective` | src/components/features/Auth/PassphraseLogin/PassphraseLogin.tsx:127 | different lists of space-free words join to different texts, and equal lists to equal texts |
| `Text.JoinLength` | src/components/features/Auth/Register/Register.tsx:431-432 | a join of n words is at least n - 1 characters long |
| `Text.LowerJoin` | src/components/features/Auth/Register/Register.tsx:431-432 | lowering a join is joining the lowered words |
| `Text.LowerJoinEqual` | src/components/features/Auth/Register/Register.tsx:431-435 | two lowered joins of space-free words are equal exactly when the lists agree word by word ignoring case |
| `Text.NatToString` | src/components/features/Auth/PassphraseLogin/PassphraseLogin.tsx:108 | a number prints as at least one decimal digit, and as exactly one when it is below ten |
| `Text.NatToStringInjective` | src/components/features/Auth/PassphraseLogin/PassphraseLogin.tsx:108 | different numbers print differently |
| `Text.MessageOr` | src/hooks/useAuth.ts:102-104 | a present, non-empty server message wins; otherwise the fallback text is used |
| `Sequences.Filter` | src/pages/Blog/BlogPage.tsx:157-161 | `filter` keeps, in order, exactly the elements the predicate accepts, each as often as it occurs |
| `Sequences.FilterAll` | src/pages/Blog/BlogPage.tsx:329-332 | a predicate that accepts everything gives the list back |
| `Sequences.FilterAgree` | src/pages/Blog/BlogPage.tsx:153-176 | predicates that agree on the list's elements filter it alike |
| `Sequences.FilterWhen` | src/pages/Blog/BlogPage.tsx:156-162 | a filter step applied only when a control is set equals one filter by "control off or condition holds" |
| `Sequences.FilterCompose` | src/pages/Blog/BlogPage.tsx:153-176 | filtering twice in a row equals filtering once by the conjunction |
| `Sequences.FilterNarrow` | src/pages/Community/CommunityPage.tsx:146-150 | a stricter predicate keeps a subsequence of what a looser one keeps |
| `Sequences.SubsequenceMembers` | src/components/common/TagSelector/TagSelector.tsx:81-84 | every element of a subsequence is in the list |
| `Sequences.SubsequenceLength` | src/components/common/TagSelector/TagSelector.tsx:81-84 | a subsequence is never longer than the list |
| `Sequences.SubsequencePrefix` | src/components/common/TagSelector/TagSelector.tsx:104-110 | a prefix of a subsequence is a subsequence |
| `Sequences.SubsequenceUnique` | src/components/common/TagSelector/TagSelector.tsx:81-84 | leaving elements out keeps ids unique |
| `Sequences.SubsequenceSkip` | src/pages/Community/CommunityPage.tsx:146-150 | putting an element in front of the list keeps a subsequence a subsequence |
| `Sequences.SubsequenceTail` | src/pages/Community/CommunityPage.tsx:146-150 | dropping the first element of a subsequence keeps it a subsequence |
| `Sequences.Take` | src/components/common/TagSelector/TagSelector.tsx:110 | `slice(0, n)` is a prefix of the list, of length n unless the list is shorter |
| `Sequences.FirstIndex` | src/components/features/Auth/PassphraseLogin/PassphraseLogin.tsx:105 | `findIndex` gives the first matching position, with the length standing for -1 |
| `Sequences.Find` | src/pages/Blog/BlogPage.tsx:149 | `find` gives a value exactly when some element matches, and then the first matching one |
| `Session.StoreToken` | src/services/authService.ts:82-85 | a non-empty received token replaces the stored one; an empty one leaves it |
| `Session.AuthSession.constructor` | src/hooks/useAuth.ts:58-61 | no user, loading, no error, dialog closed, and the browser's token kept |
| `Session.AuthSession.IsAuthenticated` | src/hooks/useAuth.ts:174 | signed in exactly when there is a user |
| `Session.AuthSession.HasToken` | src/services/authService.ts:161-164 | the service counts as authenticated exactly when a token is stored |
| `Session.AuthSession.Startup` | src/hooks/useAuth.ts:64-77 | with a token the fetched user is set, a failed fetch removes the token, and loading always ends |
| `Session.AuthSession.ClearError` | src/hooks/useAuth.ts:83-85 | the error is cleared |
| `Session.AuthSession.TriggerLogin` | src/hooks/useAuth.ts:88-90 | the sign-in dialog is requested |
| `Session.AuthSession.Authenticate` | src/hooks/useAuth.ts:93-109 | success signs the user in, clears the error, closes the dialog and stores the token; failure records the message or fallback and keeps the user; loading ends |
| `Session.AuthSession.Login` | src/hooks/useAuth.ts:93-109 | as `Authenticate`, with the fallback "Login failed. Please try again." |
| `Session.AuthSession.LoginWithPassphrase` | src/hooks/useAuth.ts:112-134 | as `Authenticate`, with the same fallback as the password sign-in |
| `Session.AuthSession.Register` | src/hooks/useAuth.ts:137-153 | as `Authenticate`, with the fallback "Registration failed. Please try again." |
| `Session.AuthSession.Logout` | src/hooks/useAuth.ts:156-166 | whatever the call's outcome, no user and no token remain, so the session is not authenticated |
| `AuthDialog.LinksLeave` | src/components/features/Auth/AuthDialog.tsx:58-75 | every view is reachable by a link shown in another dialog, and the registration and passphrase views by one in the login dialog |
| `AuthDialog.Host` | src/components/features/Auth/AuthDialog.tsx:58-75 | the password sign-in dialog holds exactly the links to registration and to passphrase sign-in |
| `AuthDialog.Target` | src/components/features/Auth/AuthDialog.tsx:58-75 | no link asks for the dialog it sits in |
| `AuthDialog.AuthDialogs.Shown` | src/components/features/Auth/AuthDialog.tsx:20-22 | a view is shown exactly when its open flag is set |
| `AuthDialog.AuthDialogs.constructor` | src/components/features/Auth/AuthDialog.tsx:14-22 | the tracked view is the initial one (password sign-in by default) and every dialog is closed |
| `AuthDialog.AuthDialogs.OpenEffect` | src/components/features/Auth/AuthDialog.tsx:25-36 | opening shows the initial view's dialog and touches no other flag; closing hides all; opening while another dialog is shown shows two |
| `AuthDialog.AuthDialogs.ViewChange` | src/components/features/Auth/AuthDialog.tsx:39-54 | exactly the requested dialog is shown afterwards, and it is the tracked view |
| `AuthDialog.AuthDialogs.Follow` | src/components/features/Auth/AuthDialog.tsx:58-75 | following a link shows its target and hides the dialog it was in; at most one dialog is shown |
| `Login.LoginValidation` | src/components/features/Auth/Login/Login.tsx:58-71 | the username is required after trimming and the password as typed; no errors exactly when both are present |
| `Login.ClearField` | src/components/features/Auth/Login/Login.tsx:50-55 | only the edited field's error is cleared; the others and the general error stay |
| `Login.LoginForm.constructor` | src/components/features/Auth/Login/Login.tsx:34-40 | empty fields, no errors, not loading, no new-device prompt |
| `Login.LoginForm.Change` | src/components/features/Auth/Login/Login.tsx:42-56 | the edited field takes the value and only its error is cleared |
| `Login.LoginForm.Validate` | src/components/features/Auth/Login/Login.tsx:58-71 | the errors are the validation's, and the form is valid exactly when there are none |
| `Login.LoginForm.Submit` | src/components/features/Auth/Login/Login.tsx:73-103 | sign-in is called exactly for a valid form; a new device shows the passphrase prompt, another success closes the dialog, a failure sets the general error |
| `Login.LoginForm.Attempt` | src/components/features/Auth/Login/Login.tsx:80-102 | the sign-in call and what follows it, loading ending either way |
| `Login.LoginForm.TryAgainWithPassword` | src/components/features/Auth/Login/Login.tsx:125 | the new-device prompt is left |
| `Passphrase.Blank` | src/components/features/Auth/PassphraseLogin/PassphraseLogin.tsx:23-25 | twelve empty boxes |
| `Passphrase.NormalSpaceFree` | src/components/features/Auth/PassphraseLogin/PassphraseLogin.tsx:127 | the boxes never hold a space |
| `Passphrase.Clean` | src/components/features/Auth/PassphraseLogin/PassphraseLogin.tsx:71 | a value without spaces is stored trimmed and in lower case, a single word simply lowered; the stored form is empty exactly when the value was all whitespace |
| `Passphrase.CleanFacts` | src/components/features/Auth/PassphraseLogin/PassphraseLogin.tsx:48 | trimming and lowering a value without spaces gives a normal word, and a single word is only lowered |
| `Passphrase.LowerTrimNormal` | src/components/features/Auth/PassphraseLogin/PassphraseLogin.tsx:71 | a space-free value is stored as a normal word |
| `Passphrase.WordIsOwnTrim` | src/components/features/Auth/PassphraseLogin/PassphraseLogin.tsx:48 | a word is its own trim and holds no space |
| `Passphrase.WordChangeFrame` | src/components/features/Auth/PassphraseLogin/PassphraseLogin.tsx:38-77 | a change writes only the box typed into and, on a spill, the next box |
| `Passphrase.WordChange` | src/components/features/Auth/PassphraseLogin/PassphraseLogin.tsx:38-77 | a change keeps twelve boxes and leaves every box other than the typed one and the next one as it was |
| `Passphrase.Spills` | src/components/features/Auth/PassphraseLogin/PassphraseLogin.tsx:52-63 | a spill needs a next box and a value that holds a space and a word |
| `Passphrase.WordChangeNormal` | src/components/features/Auth/PassphraseLogin/PassphraseLogin.tsx:38-77 | a grid of normal words stays normal: the typed box, and the next one on a spill, hold normal words, and a value of whitespace that includes a space changes nothing |
| `Passphrase.WordChangeWords` | src/components/features/Auth/PassphraseLogin/PassphraseLogin.tsx:44-54 | a value with a space stores its first word lowered, and on a spill its second word in the next box |
| `Passphrase.WordChangeClears` | src/components/features/Auth/PassphraseLogin/PassphraseLogin.tsx:68-72 | a blank value without a space empties the box |
| `Passphrase.WordChangeFixpoint` | src/components/features/Auth/PassphraseLogin/PassphraseLogin.tsx:68-72 | typing back a box's own word changes nothing |
| `Passphrase.WordChangeNoSpace` | src/components/features/Auth/PassphraseLogin/PassphraseLogin.tsx:68-72 | a value without a space replaces the box by its cleaned form |
| `Passphrase.SameUpdate` | src/components/features/Auth/PassphraseLogin/PassphraseLogin.tsx:70-72 | writing a box's own content back changes nothing |
| `Passphrase.PasteTokens` | src/components/features/Auth/PassphraseLogin/PassphraseLogin.tsx:143 | a pasted text gives at least one normal word: one empty word when blank, else its lowered words |
| `Passphrase.PasteTokensWords` | src/components/features/Auth/PassphraseLogin/PassphraseLogin.tsx:143 | a non-blank paste gives its lowered words |
| `Passphrase.LowerWordsNormal` | src/components/features/Auth/PassphraseLogin/PassphraseLogin.tsx:143 | lowered words are normal |
| `Passphrase.PasteWords` | src/components/features/Auth/PassphraseLogin/PassphraseLogin.tsx:140-156 | a paste keeps twelve boxes |
| `Passphrase.Overlay` | src/components/features/Auth/PassphraseLogin/PassphraseLogin.tsx:149-154 | the first boxes take the pasted words, and the others keep theirs |
| `Passphrase.PasteFill` | src/components/features/Auth/PassphraseLogin/PassphraseLogin.tsx:140-156 | n pasted words fill the first min(n, 12) boxes with non-empty lowered words and leave the rest |
| `Passphrase.PasteTwelve` | src/components/features/Auth/PassphraseLogin/PassphraseLogin.tsx:146 | twelve or more pasted words leave no box empty |
| `Passphrase.PasteNormal` | src/components/features/Auth/PassphraseLogin/PassphraseLogin.tsx:140-156 | pasting keeps every box normal |
| `Passphrase.PasteAt` | src/components/features/Auth/PassphraseLogin/PassphraseLogin.tsx:150-154 | box i after a paste holds pasted word i when there is one, else its old word |
| `Passphrase.PasteBlank` | src/components/features/Auth/PassphraseLogin/PassphraseLogin.tsx:143-152 | a blank paste empties the first box only |
| `Passphrase.FirstEmpty` | src/components/features/Auth/PassphraseLogin/PassphraseLogin.tsx:105 | the first empty box, or none exactly when every box holds a word |
| `Passphrase.PasteFocus` | src/components/features/Auth/PassphraseLogin/PassphraseLogin.tsx:158-164 | after a paste the focus is on the first empty box, or on the last box when all are filled |
| `Passphrase.KeyFocus` | src/components/features/Auth/PassphraseLogin/PassphraseLogin.tsx:80-95 | the focus stays within the twelve boxes |
| `Passphrase.ArrowsInverse` | src/components/features/Auth/PassphraseLogin/PassphraseLogin.tsx:86-94 | right then left, or left then right, returns to the same box away from the edges |
| `Passphrase.BackspaceMoves` | src/components/features/Auth/PassphraseLogin/PassphraseLogin.tsx:82-84 | Backspace moves the focus exactly when the box is empty and not the first |
| `Passphrase.WordGrid.constructor` | src/components/features/Auth/Register/Register.tsx:317-322 | twelve empty boxes, focus on the first |
| `Passphrase.WordGrid.ChangeWord` | src/components/features/Auth/Register/Register.tsx:325-364 | the boxes become the word change's result; a spill moves the focus to the next box |
| `Passphrase.WordGrid.KeyDown` | src/components/features/Auth/Register/Register.tsx:367-385 | the focus moves as `KeyFocus` says |
| `Passphrase.WordGrid.Paste` | src/components/features/Auth/Register/Register.tsx:387-412 | the boxes become the paste's result, focused as `PasteFocus` says |
| `Passphrase.WordGrid.Overwrite` | src/components/features/Auth/Register/Register.tsx:397-401 | the first boxes take the given words in place, and the rest keep theirs |
| `Passphrase.WordGrid.FirstEmptyIndex` | src/components/features/Auth/Register/Register.tsx:406 | the loop finds `FirstEmpty` of the boxes |
| `Passphrase.WordGrid.Joined` | src/components/features/Auth/Register/Register.tsx:431 | the loop builds the single-space join of the boxes |
| `PassphraseLogin.EmptyWordMessage` | src/components/features/Auth/PassphraseLogin/PassphraseLogin.tsx:108 | the message is the fixed text with the box number, counted from 1, readable back between its fixed parts |
| `PassphraseLogin.EmptyWordMessageInjective` | src/components/features/Auth/PassphraseLogin/PassphraseLogin.tsx:105-111 | the empty-word message names the box: different boxes give different messages |
| `PassphraseLogin.CredentialRoundTrip` | src/components/features/Auth/PassphraseLogin/PassphraseLogin.tsx:126-128 | the sent passphrase splits back at single spaces into exactly the twelve boxes |
| `PassphraseLogin.PassphraseLoginForm.constructor` | src/components/features/Auth/PassphraseLogin/PassphraseLogin.tsx:21-27 | empty username, twelve empty boxes, no errors, not loading |
| `PassphraseLogin.PassphraseLoginForm.UsernameChange` | src/components/features/Auth/PassphraseLogin/PassphraseLogin.tsx:32-35 | the username takes the value and its error is cleared |
| `PassphraseLogin.PassphraseLoginForm.ChangeWord` | src/components/features/Auth/PassphraseLogin/PassphraseLogin.tsx:38-77 | the boxes change as `WordChange` says, and the form error is cleared unless the word spilled |
| `PassphraseLogin.PassphraseLoginForm.KeyDown` | src/components/features/Auth/PassphraseLogin/PassphraseLogin.tsx:80-95 | the focus moves as `KeyFocus` says |
| `PassphraseLogin.PassphraseLoginForm.Paste` | src/components/features/Auth/PassphraseLogin/PassphraseLogin.tsx:140-165 | the boxes and focus change as `PasteWords` and `PasteFocus` say |
| `PassphraseLogin.PassphraseLoginForm.Validate` | src/components/features/Auth/PassphraseLogin/PassphraseLogin.tsx:97-114 | valid exactly when the username is not blank and no box is empty; each failure sets its message, and nothing is cleared |
| `PassphraseLogin.PassphraseLoginForm.Submit` | src/components/features/Auth/PassphraseLogin/PassphraseLogin.tsx:97-138 | only a valid form sends, with the username as typed and the boxes joined by spaces; success closes, failure sets the message; an invalid form shows the blank-username message and the first empty box's message |
| `Register.ValidateRegistration` | src/components/features/Auth/Register/Register.tsx:75-98 | each field's message in its order of checks; no errors exactly when the username is non-blank and 4+ long, the password 8+ long, and the confirmation equal |
| `Register.Acceptable` | src/components/features/Auth/Register/Register.tsx:75-98 | an acceptable form has a non-blank username and a confirmation of at least eight characters |
| `Register.ClearField` | src/components/features/Auth/Register/Register.tsx:66-72 | only the edited field's error is cleared |
| `Register.VerificationMatch` | src/components/features/Auth/Register/Register.tsx:430-435 | the check passes exactly when each box holds the matching passphrase word in lower case; a passphrase of other than twelve words never passes |
| `Register.PasteOwnPassphrase` | src/components/features/Auth/Register/Register.tsx:387-401 | pasting the issued passphrase fills the boxes with its lowered words, so the check passes |
| `Register.RegisterDialog.constructor` | src/components/features/Auth/Register/Register.tsx:41-57 | empty form, no errors, form step, no passphrase, twelve empty boxes |
| `Register.RegisterDialog.Change` | src/components/features/Auth/Register/Register.tsx:59-73 | the edited field takes the value and only its error is cleared |
| `Register.RegisterDialog.Validate` | src/components/features/Auth/Register/Register.tsx:75-98 | the errors are the validation's, and valid exactly when the form is acceptable |
| `Register.RegisterDialog.Submit` | src/components/features/Auth/Register/Register.tsx:100-127 | register is called exactly for an acceptable form; an issued passphrase is split into words that join back to it and the passphrase step shows; failure sets the general error |
| `Register.RegisterDialog.GoToVerification` | src/components/features/Auth/Register/Register.tsx:171-173 | the check step shows |
| `Register.RegisterDialog.GoBackToPassphrase` | src/components/features/Auth/Register/Register.tsx:175-179 | the passphrase step shows and the check error is cleared |
| `Register.RegisterDialog.ChangeWord` | src/components/features/Auth/Register/Register.tsx:325-364 | the boxes change as `WordChange` says, and the check error is cleared unless the word spilled |
| `Register.RegisterDialog.KeyDown` | src/components/features/Auth/Register/Register.tsx:367-385 | the focus moves as `KeyFocus` says |
| `Register.RegisterDialog.Paste` | src/components/features/Auth/Register/Register.tsx:387-412 | the boxes and focus change as `PasteWords` and `PasteFocus` say |
| `Register.RegisterDialog.SubmitVerification` | src/components/features/Auth/Register/Register.tsx:419-446 | with a box empty only the "enter all words" message is set; otherwise registration completes exactly when the boxes are the lowered passphrase, and a mismatch sets the error |
| `Posts.AuthorId` | src/services/PostsService.ts:29 | the API author id, or "" when it is missing or empty |
| `Posts.AuthorName` | src/services/PostsService.ts:30 | never empty: the API username, or "Anonymous" when it is missing or empty |
| `Posts.TransformPost` | src/services/PostsService.ts:19-38 | every API field is kept; the aliases copy the API fields; the author is rebuilt; the per-user flags start false |
| `Posts.TransformIdempotent` | src/services/PostsService.ts:19-38 | transforming twice is transforming once |
| `Posts.TransformInjective` | src/services/PostsService.ts:19-38 | posts that differ in an API field stay different |
| `Posts.TransformAll` | src/services/PostsService.ts:52 | each post is transformed in place, in order |
| `Posts.ToPage` | src/services/PostsService.ts:52-62 | the page holds the transformed posts in order, copies the paging numbers, and has a next page exactly when it is not the last |
| `Posts.ToPageIds` | src/services/PostsService.ts:52-56 | every post id reappears at the same position as the client id |
| `Posts.VoteType` | src/services/PostsService.ts:145 | "up" exactly for a like, "down" otherwise |
| `Posts.SaveEndpoint` | src/services/PostsService.ts:161 | "save" exactly for a save, "unsave" otherwise |
| `Posts.PostPath` | src/services/PostsService.ts:74 | a post's resource lies under `/api/posts/`, and the id can be read back after that prefix |
| `Posts.VotePath` | src/services/PostsService.ts:146 | the vote endpoint lies under the post's path |
| `Posts.SavePath` | src/services/PostsService.ts:162 | the save endpoint lies under the post's path |
| `Posts.SavePathsDiffer` | src/services/PostsService.ts:161-162 | saving and unsaving a post go to different paths |
| `Posts.ToUpdateBody` | src/services/PostsService.ts:110-116 | each update field goes to its API name |
| `Posts.FromUpdateBody` | src/services/PostsService.ts:110-116 | each API name reads back as its update field |
| `Posts.UpdateBodyRoundTrip` | src/services/PostsService.ts:110-116 | the update body loses nothing, present or absent, in both directions |
| `Feed.Bumped` | src/pages/Feed/FeedPage.tsx:108 | a like adds one and an unlike takes one off |
| `Feed.LikePosts` | src/pages/Feed/FeedPage.tsx:103-113 | only the posts with the liked id change: their count moves by one and their liked flag is set |
| `Feed.LikeUnlike` | src/pages/Feed/FeedPage.tsx:98-117 | a like then an unlike gives every post its count back, the liked post ending not liked |
| `Feed.FeedPage.constructor` | src/pages/Feed/FeedPage.tsx:22-28 | no posts, loading, page 1, more to load, modal closed |
| `Feed.FeedPage.Fetch` | src/pages/Feed/FeedPage.tsx:34-58 | page 1 replaces the list and later pages append; more exactly when the page was not empty; a failure keeps the list and sets the error; loading ends |
| `Feed.FeedPage.LastItemVisible` | src/pages/Feed/FeedPage.tsx:61-81 | the page advances by one exactly when not loading and there is more |
| `Feed.FeedPage.Refresh` | src/pages/Feed/FeedPage.tsx:83-86 | back to page 1, with a new fetch forced |
| `Feed.FeedPage.SetCreateModalOpen` | src/pages/Feed/FeedPage.tsx:133 | the modal opens or closes as asked |
| `Feed.FeedPage.CreatePost` | src/pages/Feed/FeedPage.tsx:88-96 | a created post closes the modal and refreshes the feed; a failure changes nothing |
| `Feed.FeedPage.LikePost` | src/pages/Feed/FeedPage.tsx:98-117 | the list changes as `LikePosts` says only after the call succeeded |
| `PostView.ShownAuthor` | src/components/features/Feed/Post/Post.tsx:95-103 | an anonymous post shows "Anonymous" and no picture; any other its author's name and picture |
| `PostView.TransformedAuthor` | src/services/PostsService.ts:28-32 | every served post can be rendered, never with a picture, as "Anonymous" exactly when flagged anonymous, nameless or named "Anonymous", else under the API name |
| `PostView.UrgencyLabel` | src/components/features/Feed/Post/Post.tsx:64-86 | no badge for a missing or low urgency; each other level gets its own label |
| `PostView.UrgencyLabelInjective` | src/components/features/Feed/Post/Post.tsx:67-71 | two shown badges are equal only for the same level |
| `PostView.LikeRequest` | src/components/features/Feed/Post/Post.tsx:47-49 | a like click sends the post's id and asks for the opposite of its liked state |
| `PostView.LikeClickFlips` | src/components/features/Feed/Post/Post.tsx:47-49 | a click answered by the feed flips the liked state and moves the count one step; two clicks restore the count |
| `PostView.PostCard.constructor` | src/components/features/Feed/Post/Post.tsx:26-29 | content hidden exactly when the post has a trigger warning; comments closed |
| `PostView.PostCard.TagsShown` | src/components/features/Feed/Post/Post.tsx:142-153 | tags show only with the content, and only when there are some |
| `PostView.PostCard.ToggleContent` | src/components/features/Feed/Post/Post.tsx:55-57 | the content visibility flips |
| `PostView.PostCard.ToggleComments` | src/components/features/Feed/Post/Post.tsx:51-53 | the comments' visibility flips |
| `PostForm.TagIds` | src/components/features/Feed/PostCreationForm/PostCreationForm.tsx:97 | the selected tags' ids, in selection order |
| `PostForm.SubmitError` | src/components/features/Feed/PostCreationForm/PostCreationForm.tsx:80-88 | blank content is refused first, then a warning without a description; nothing else is refused |
| `PostForm.Payload` | src/components/features/Feed/PostCreationForm/PostCreationForm.tsx:94-100 | the payload copies the form, with tag ids, and the warning text only while the warning is on |
| `PostForm.PayloadValid` | src/components/features/Feed/PostCreationForm/PostCreationForm.tsx:80-100 | a sent payload has content, and carries a described warning exactly when the warning is on |
| `PostForm.ClickSubmission` | src/components/features/Feed/PostCreationForm/PostCreationForm.tsx:77-100 | a click on a button without a type in the form submits it: nothing when the content is empty (`required`), the validation message when rejected, and the payload exactly when the form is valid |
| `PostForm.UntypedPickerButtonsSubmit` | src/components/common/TagSelector/TagSelector.tsx:158-163 | as written, a click on a search result, on the create option or on a popular tag hands over the post whenever the form is valid |
| `PostForm.TypedPickerButtonsKeepForm` | src/components/common/TagSelector/TagSelector.tsx:127-128 | a button typed `button`, as remove, cancel and create are, never submits the post |
| `PostForm.PostCreationForm.constructor` | src/components/features/Feed/PostCreationForm/PostCreationForm.tsx:24-33 | empty content, anonymous, no tags, no warning, count 0 |
| `PostForm.PostCreationForm.LoadTags` | src/components/features/Feed/PostCreationForm/PostCreationForm.tsx:35-48 | loaded tags become available; a failure only sets the explanation |
| `PostForm.PostCreationForm.ContentChange` | src/components/features/Feed/PostCreationForm/PostCreationForm.tsx:50-54 | the content takes the value and the counter its length |
| `PostForm.PostCreationForm.TagsChange` | src/components/features/Feed/PostCreationForm/PostCreationForm.tsx:56-58 | the selection takes the new tags |
| `PostForm.PostCreationForm.WarningTextChange` | src/components/features/Feed/PostCreationForm/PostCreationForm.tsx:60-64 | the warning text takes the value |
| `PostForm.PostCreationForm.ToggleAnonymity` | src/components/features/Feed/PostCreationForm/PostCreationForm.tsx:66-68 | anonymity flips |
| `PostForm.PostCreationForm.ToggleTriggerWarning` | src/components/features/Feed/PostCreationForm/PostCreationForm.tsx:70-75 | the warning flips, and turning it on empties its description |
| `PostForm.PostCreationForm.CanSubmit` | src/components/features/Feed/PostCreationForm/PostCreationForm.tsx:206 | the button is enabled exactly with non-blank content while not loading |
| `PostForm.PostCreationForm.CounterWarning` | src/components/features/Feed/PostCreationForm/PostCreationForm.tsx:174-180 | the counter warns exactly past 80% of the 1000-character limit |
| `PostForm.PostCreationForm.Submit` | src/components/features/Feed/PostCreationForm/PostCreationForm.tsx:77-113 | sends exactly when nothing is refused; success clears content, tags and warning and keeps anonymity; failure sets the message and keeps everything |
| `PostForm.PostCreationForm.Send` | src/components/features/Feed/PostCreationForm/PostCreationForm.tsx:90-112 | the hand-over of a valid form and what follows it |
| `PostForm.PostCreationForm.Reset` | src/components/features/Feed/PostCreationForm/PostCreationForm.tsx:102-107 | content, tags and warning are cleared and the counter is 0 |
| `TagSelector.Matching` | src/components/common/TagSelector/TagSelector.tsx:104-109 | exactly the available tags whose name contains the term ignoring case and whose id is not selected, in order and with their repeats |
| `TagSelector.FilteredTags` | src/components/common/TagSelector/TagSelector.tsx:104-110 | the first ten matches in their order, or all of them when there are fewer; each matching and unselected |
| `TagSelector.EmptyTermMatches` | src/components/common/TagSelector/TagSelector.tsx:107 | with an empty search every unselected tag matches |
| `TagSelector.ShowCreateOption` | src/components/common/TagSelector/TagSelector.tsx:112-118 | offered exactly when creation is allowed, the term is not blank, no known tag has that name ignoring case, and no creation is under way |
| `TagSelector.TagPicker.constructor` | src/components/common/TagSelector/TagSelector.tsx:21-34 | the given selection and tags, at most 5 by default, creation allowed by default, an empty search |
| `TagSelector.TagPicker.Select` | src/components/common/TagSelector/TagSelector.tsx:72-79 | a full selection or a selected id changes nothing; otherwise the tag is appended, keeping the cap and unique ids |
| `TagSelector.TagPicker.Remove` | src/components/common/TagSelector/TagSelector.tsx:81-84 | exactly the tags with that id go; the others keep their order and multiplicity |
| `TagSelector.TagPicker.SearchChange` | src/components/common/TagSelector/TagSelector.tsx:86-88 | the search term takes the value |
| `TagSelector.TagPicker.SetCreating` | src/components/common/TagSelector/TagSelector.tsx:178 | creation mode starts or ends as asked |
| `TagSelector.TagPicker.NewTagNameChange` | src/components/common/TagSelector/TagSelector.tsx:193 | the new name takes the value |
| `TagSelector.TagPicker.CreateTag` | src/components/common/TagSelector/TagSelector.tsx:90-102 | a blank name sends nothing; a created tag joins the known tags and is selected as by `Select`, ending creation; a failure changes nothing |
| `TagSelector.TagPicker.Results` | src/components/common/TagSelector/TagSelector.tsx:104-110 | the listed results are known, unselected tags, at most ten |
| `Comment.Key` | src/components/features/Feed/Comment/Comment.tsx:39 | `comment_id` when truthy, else `id` |
| `Comment.IsAnonymous` | src/components/features/Feed/Comment/Comment.tsx:40 | always true, whatever the record says |
| `Comment.IsExpertResponse` | src/components/features/Feed/Comment/Comment.tsx:41-42 | set exactly when either format's flag is true |
| `Comment.LikeCount` | src/components/features/Feed/Comment/Comment.tsx:43 | the first non-zero count of the two formats, else 0 |
| `Comment.IsLiked` | src/components/features/Feed/Comment/Comment.tsx:44 | liked exactly when the vote is "up" or the liked flag is set |
| `Comment.AuthorInfo` | src/components/features/Feed/Comment/Comment.tsx:47-58 | the nested author's name and avatar, else the flat name without avatar |
| `Comment.DisplayName` | src/components/features/Feed/Comment/Comment.tsx:61-62 | every comment shows "Anonymous" |
| `Comment.LikeIntent` | src/components/features/Feed/Comment/Comment.tsx:99-106 | a click asks for the opposite of the liked state |
| `Comment.Voted` | src/components/features/Feed/CommentSection/CommentSection.tsx:153-160 | the count moves by one from its value or 0, the vote becomes "up" or none, and nothing else changes |
| `Comment.VotedLiked` | src/components/features/Feed/CommentSection/CommentSection.tsx:153-160 | after a vote the comment reads as liked exactly for a like, or when the camelCase flag, never cleared, was set |
| `Comment.VotedUndo` | src/components/features/Feed/CommentSection/CommentSection.tsx:153-160 | a like then an unlike restores the count, an absent one as 0 |
| `Comment.LikeRaisesCount` | src/components/features/Feed/CommentSection/CommentSection.tsx:153-160 | a like raises the shown count by one |
| `Comment.CommentCard.constructor` | src/components/features/Feed/Comment/Comment.tsx:32 | the reply form starts closed |
| `Comment.CommentCard.ToggleReplyForm` | src/components/features/Feed/Comment/Comment.tsx:209 | the reply form opens or closes |
| `Comment.CommentCard.ReplySubmitted` | src/components/features/Feed/Comment/Comment.tsx:108-114 | the form closes only when the reply was posted, and the answer is passed on |
| `CommentSection.ExtractComments` | src/components/features/Feed/CommentSection/CommentSection.tsx:56-68 | the comments of a "success" object, the array itself, or nothing |
| `CommentSection.ExtractNewComment` | src/components/features/Feed/CommentSection/CommentSection.tsx:96-110 | `data` when that key exists, else `comment`, else the response itself |
| `CommentSection.WithReply` | src/components/features/Feed/CommentSection/CommentSection.tsx:125-129 | the reply is appended to the replies, created if absent, and nothing else changes |
| `CommentSection.InsertReply` | src/components/features/Feed/CommentSection/CommentSection.tsx:119-133 | every top-level comment with the parent id gets the reply, and no other changes |
| `CommentSection.InsertReplyNoParent` | src/components/features/Feed/CommentSection/CommentSection.tsx:119-133 | without a matching parent the list is unchanged |
| `CommentSection.InsertReplyAppends` | src/components/features/Feed/CommentSection/CommentSection.tsx:125-129 | the parent gains exactly one reply, the new one, at the end |
| `CommentSection.LikeReplies` | src/components/features/Feed/CommentSection/CommentSection.tsx:166-178 | only the replies with the target id get the vote |
| `CommentSection.LikeInTree` | src/components/features/Feed/CommentSection/CommentSection.tsx:150-183 | the list keeps its length |
| `CommentSection.LikeInTreeFrame` | src/components/features/Feed/CommentSection/CommentSection.tsx:150-183 | a comment that neither is nor holds the target stays as it was |
| `CommentSection.LikeInTreeTop` | src/components/features/Feed/CommentSection/CommentSection.tsx:153-161 | the target top-level comment gets the vote, and its replies are not searched |
| `CommentSection.LikeInTreeReply` | src/components/features/Feed/CommentSection/CommentSection.tsx:163-179 | under a non-target comment, exactly the target replies get the vote and the parent's own fields stay |
| `CommentSection.RenderedLikeTarget` | src/components/features/Feed/Comment/Comment.tsx:235 | as written, a reply card likes with its top-level comment's id |
| `CommentSection.IntendedLikeTarget` | src/components/features/Feed/CommentSection/CommentSection.tsx:263-267 | every card likes with its own id |
| `CommentSection.ReplyLikeHitsParent` | src/components/features/Feed/Comment/Comment.tsx:235 | liking the sample reply as written raises its parent's count and leaves the reply unchanged |
| `CommentSection.ReplyLikeIntended` | src/components/features/Feed/CommentSection/CommentSection.tsx:163-179 | with the intended target, a reply's like votes that reply and leaves its parent's fields |
| `CommentSection.CommentList.constructor` | src/components/features/Feed/CommentSection/CommentSection.tsx:35-39 | no comments, loading, no errors |
| `CommentSection.CommentList.Load` | src/components/features/Feed/CommentSection/CommentSection.tsx:42-81 | signed out shows the sign-in notice without fetching; otherwise the extracted list replaces the old one, or a failure sets the error; loading ends |
| `CommentSection.CommentList.Refresh` | src/components/features/Feed/CommentSection/CommentSection.tsx:84-86 | a reload is forced |
| `CommentSection.CommentList.Submit` | src/components/features/Feed/CommentSection/CommentSection.tsx:91-144 | added exactly when the call succeeded with a comment; a reply goes under its parent, anything else at the end |
| `CommentSection.CommentList.Like` | src/components/features/Feed/CommentSection/CommentSection.tsx:147-192 | the list is updated before the call; a failure keeps the update and forces a reload |
| `CommentForm.CommentBox.constructor` | src/components/features/Feed/CommentForm/CommentForm.tsx:23-24 | an empty box, not submitting |
| `CommentForm.CommentBox.Change` | src/components/features/Feed/CommentForm/CommentForm.tsx:51-57 | the box takes the value |
| `CommentForm.CommentBox.SubmitDisabled` | src/components/features/Feed/CommentForm/CommentForm.tsx:133 | disabled exactly while blank or submitting |
| `CommentForm.CommentBox.Submit` | src/components/features/Feed/CommentForm/CommentForm.tsx:28-48 | a blank box sends nothing; otherwise the trimmed text is sent, the box empties only on an answer of true, and submitting ends |
| `CommentForm.CommentBox.KeyDown` | src/components/features/Feed/CommentForm/CommentForm.tsx:60-67 | Ctrl+Enter on a non-blank box submits; other keys do nothing |
| `Notifications.NotificationIcon` | src/components/features/Notifications/NotificationItem/NotificationItem.tsx:38-55 | each declared kind has its own icon; any other kind gets the default |
| `Notifications.IconsDistinct` | src/components/features/Notifications/NotificationItem/NotificationItem.tsx:38-55 | two different declared kinds never share an icon |
| `Notifications.NotificationLink` | src/components/features/Notifications/NotificationItem/NotificationItem.tsx:57-62 | a link to the post exactly when there is a related post id, which can be read back from it; otherwise "#" |
| `Notifications.LinkInjective` | src/components/features/Notifications/NotificationItem/NotificationItem.tsx:57-62 | two post links are equal exactly when they concern the same post |
| `Notifications.Click` | src/components/features/Notifications/NotificationItem/NotificationItem.tsx:27-36 | only an unread notification is marked, and the list hears of it, with the same id, only when marking succeeded |
| `Notifications.ClickSettles` | src/components/features/Notifications/NotificationItem/NotificationItem.tsx:27-36 | once the list marks it read, a click does nothing; after a failed mark the next click tries again |
| `Avatar.FirstOrUndefined` | src/components/common/Avatar/Avatar.tsx:23 | the first character, or the text "undefined" for an empty piece |
| `Avatar.InitialsDoubleSpace` | src/components/common/Avatar/Avatar.tsx:21-24 | as written, two words joined by a double space (such as "a  b") get the first letter upper-cased followed by "UNDEFINED", ten characters instead of two |
| `Avatar.SplitDoubleSpace` | src/components/common/Avatar/Avatar.tsx:21 | splitting at single spaces leaves an empty piece between two words joined by a double space |
| `Avatar.InitialsAsWritten` | src/components/common/Avatar/Avatar.tsx:18-27 | "A" for a missing or anonymous name; with a space, the first characters of the first two `split(" ")` pieces, each `undefined` when its piece is empty; without one, the first two characters; upper-cased |
| `Avatar.Initials` | src/components/common/Avatar/Avatar.tsx:18-27 | the intended initials: "A" for a missing, anonymous or blank name; the first letters of the first two words; the first two letters of a single word; always one or two characters, none a space or a small letter |
| `Avatar.InitialsDoubleSpaceIntended` | src/components/common/Avatar/Avatar.tsx:21-24 | two words joined by a double space get their two first letters, upper-cased |
| `Avatar.TokensDoubleSpace` | src/components/common/Avatar/Avatar.tsx:21 | a double space separates two words like a single one |
| `Avatar.InitialsAgree` | src/components/common/Avatar/Avatar.tsx:21-24 | for two words separated by one space, the intended initials equal the written ones |
| `Avatar.CodeSumConcat` | src/components/common/Avatar/Avatar.tsx:45-47 | the code sum of a join is the sum of the code sums |
| `Avatar.CodeSumPermutation` | src/components/common/Avatar/Avatar.tsx:45-47 | names with the same characters in any order have the same code sum |
| `Avatar.Color` | src/components/common/Avatar/Avatar.tsx:29-50 | grey for "Anonymous"; otherwise the palette entry at the code sum modulo 8 |
| `Avatar.ColorProperties` | src/components/common/Avatar/Avatar.tsx:29-50 | named users never get the grey, and rearranging a name keeps its colour |
| `Blog.ByCategory` | src/pages/Blog/BlogPage.tsx:156-162 | the category step is one filter by "all categories, or in the category" |
| `Blog.BySearch` | src/pages/Blog/BlogPage.tsx:165-174 | the search step is one filter by "no term, or matching" |
| `Blog.FilteredPosts` | src/pages/Blog/BlogPage.tsx:152-177 | the listed articles are exactly the selected ones, in order |
| `Blog.ResetShowsAll` | src/pages/Blog/BlogPage.tsx:329-332 | "View All Articles" lists every article |
| `Blog.CategoryNarrows` | src/pages/Blog/BlogPage.tsx:156-162 | choosing a category only hides articles |
| `Blog.FeaturedPost` | src/pages/Blog/BlogPage.tsx:149 | the first featured article, else the first article; none only for an empty list |
| `Community.ByTopic` | src/pages/Community/CommunityPage.tsx:137-143 | the topic step is one filter by "all topics, or some tag contains the topic" |
| `Community.ByActivity` | src/pages/Community/CommunityPage.tsx:146-150 | the activity step is one filter by "any activity, or that level" |
| `Community.BySearch` | src/pages/Community/CommunityPage.tsx:153-164 | the search step is one filter by "no term, or matching" |
| `Community.FilteredCommunities` | src/pages/Community/CommunityPage.tsx:133-167 | the listed communities are exactly the selected ones, in order |
| `Community.ResetShowsAll` | src/pages/Community/CommunityPage.tsx:304-308 | "Reset Filters" lists every community |
| `Community.ActivityNarrows` | src/pages/Community/CommunityPage.tsx:146-150 | choosing an activity level only hides communities |
| `Community.ActivitiesDisjoint` | src/pages/Community/CommunityPage.tsx:146-150 | different activity levels never list the same community |

## Left out

- Network calls, the browser's storage, timers, DOM focus and the clipboard. Each call's result is a method parameter. The stored token is a field. A `setTimeout` runs at once. Focus is a box index. A pasted text is a string parameter.
- Concurrency: responses that arrive out of order, and state updates made after a component unmounted.
- Rendering, styles, animations, date formatting (`formatDistanceToNow`) and the `Math.random()` fallback keys.
- Case mapping covers the ASCII letters only. JavaScript's full Unicode case mapping is not modelled.
- Character codes in the avatar colour are Unicode scalar values, not UTF-16 code units. The two differ outside the Basic Multilingual Plane.
- Lengths and character positions: a string is a sequence of Unicode scalar values, while JavaScript's `.length`, `substring` and `[i]` count UTF-16 code units. A character above U+FFFF counts once here and twice in the source, so the lengths below differ for such text (the password "😀😀😀😀" has `.length` 8 in the source and length 4 here).
- Register.ValidateRegistration: the username's 4-character and the password's 8-character minimum (Register.tsx:80, 86) are measured in scalar values, not UTF-16 units.
- Register.Acceptable: the same length minimums, in scalar values.
- Register.RegisterDialog.Validate: inherits the scalar-value length minimums of `ValidateRegistration`.
- PostForm.PostCreationForm.ContentChange: the counter holds the content's length in scalar values, where `newContent.length` (PostCreationForm.tsx:53) counts UTF-16 units.
- PostForm.PostCreationForm.CounterWarning: the 80% threshold is applied to the scalar-value count.
- Avatar.InitialsAsWritten: `[0]` and `substring(0, 2)` (Avatar.tsx:23, 26) take UTF-16 units, so a name starting with a character above U+FFFF gets half of it; the model takes whole scalar values.
- Register: the verification step's boxes are held by `useRef`/`useState` called inside `renderVerificationStep` (lines 317-322), which runs only on that step (lines 514-522). Switching to the step renders more hooks than the previous render, and React throws. As written the step cannot be used. `Register.RegisterDialog.ChangeWord`, `KeyDown`, `Paste` and `SubmitVerification`, `Register.VerificationMatch` and `Register.PasteOwnPassphrase` model the step as intended, with the boxes as a field of the dialog.
- Register: the textarea check (`handleVerificationChange`, the first `handleVerificationSubmit`, lines 141-169) is never rendered. It and the `verificationInput` it uses are not modelled.
- Register.RegisterDialog.GoBackToPassphrase: does not model clearing `verificationInput`, which only the unrendered textarea reads.
- Register: copying the passphrase to the clipboard (lines 129-139) is not modelled.
- Session.AuthSession.Startup: `getCurrentUser` in `authService.ts` is not part of this model. The fetched user is a parameter, so a fetch failure that the service swallows appears here as a success.
- Passphrase.WordGrid: the focus records only the moves the handlers make with `.focus()`. A click into a box moves the browser's focus and is not modelled. So after a change without a spill, `ChangeWord` keeps the old focus even when the typed box is another one.
- PostForm.PostCreationForm.ContentChange: the textarea's `maxLength` of 1000 is enforced by the browser and is not modelled; the handler takes any value.
- PostForm.PostCreationForm.Submit: its failure branch (lines 108-110) is not reached in the application. `FeedPage.tsx:88-96` catches every error of the create call, so the form resets and the text is lost even when the post was not created. The model follows the form on its own.
- TagSelector: whether a picker click's own update of the selection reaches the submission it triggers depends on React's batching; `PostForm.ClickSubmission` takes the selection the submit handler sees as a parameter.
- Feed.Bumped: an absent like count stays absent, where JavaScript would compute `NaN`.
- Posts: `transformPostData` does not set `createdAt`, `commentCount` or `urgencyLevel`. The model keeps what the post already had. The deletion and report calls send a request and change no client state, so they are not modelled.
- TagSelector: the tag fetch when no tags are passed in, the popular-tags fetch, and the loading flag are not modelled. The selection belongs to the parent form and changes through `onChange`. The model keeps it as a field.
- Notifications: the item does not update its own `isRead`. `ClickSettles` states what follows once the list has done so.
- Blog, Community: the built-in article and community lists are not included. The filters are proved for any list. Authors, dates, member counts and images only affect the display.
- The contact page, the routes, the feed filters component, the navigation, and the purely presentational components.

## Findings

| source | as written | input that shows it | evidently intended | confidence | as-written member | corrected member |
|---|---|---|---|---|---|---|
| src/components/common/Avatar/Avatar.tsx:21-24 | the name is split at single spaces, and the first character of each of the first two pieces is taken | the username "a  b" (two spaces) splits into "a", "" and "b", and the initials read "AUNDEFINED" | the first letters of the first two words, words separated by any whitespace: "AB" | not executed | `Avatar.InitialsDoubleSpace` | `Avatar.InitialsDoubleSpaceIntended` |
| src/components/common/TagSelector/TagSelector.tsx:158 | the search-result buttons, the "create tag" option (line 176) and the popular-tag buttons (line 223) have no `type`, inside the post form (`PostCreationForm.tsx:116`, `:188`) | with content "hello" and no trigger warning, clicking a search result also sends the post and resets the form | these buttons only act on the picker, as the remove, cancel and create buttons with `type="button"` do | not executed | `PostForm.UntypedPickerButtonsSubmit` | `PostForm.TypedPickerButtonsKeepForm` |
| src/components/features/Feed/Comment/Comment.tsx:235 | a reply card receives its parent's `onLike`, which `CommentSection.tsx:263-267` binds to the parent's id | liking reply "r1" under comment "c1" raises the count of "c1" and leaves "r1" unchanged | each card likes its own comment | not executed | `CommentSection.ReplyLikeHitsParent` | `CommentSection.ReplyLikeIntended` |
