# admin-mentor-space in Dafny

A Dafny model of the logic inside a role-based intern-management web app. The app has two roles: administrator (`admin`) and intern (`intern`). It has no backend, and all its data is held in memory.

- **Session** (`Auth`): `AuthProvider` holds the signed-in user and the role chosen before login. Its operations are `selectRole`, `login` (a fixed credential check) and `logout`. The model is a class with those two fields and three methods. A pure `Session` value, with `Step` and `Run`, is used to state properties of whole action sequences.
- **Route gate** (`App`): `AppRoutes` shows role selection, the login form for the chosen role, or the signed-in shell. The shell's path table ends in a not-found catch-all.
- **Tools screen** (`Tools`): the intern view has a case-insensitive search, a category filter and a bookmark toggle. The admin view has an add-tool form, which splits the tags field on commas and trims each tag.
- **Attendance screen** (`Attendance`): a name/email search, and a present/absent toggle on a map keyed by intern id. It also shows the present, absent and rate figures.
- **Roadmap screen** (`Roadmap`): difficulty colours, the two step-status priorities, the progress of each card, the expand button, and the sums on the overview card.
- **Navigation bar** (`Navigation`): link highlighting, and the brand label and icon for each role. It also covers the mobile-menu flag and the logout buttons.
- **Login form** (`LoginForm`): the `isLoading` flag around the `login` call, the three possible outcomes, and the header and demo hint for each role.

Shared helpers:

- `Wrappers`: the `Option` type.
- `Seqs`: an order-preserving `Filter`, a subsequence predicate and a no-duplicates predicate.
- `Text`: `toLowerCase`, `includes`, `split` and `trim`.
- `Percent`: `Math.round((a / b) * 100)` in exact integer arithmetic.
- `Icons`: icon names.

The role literals follow the code. The administrator's username is `admin`, not `administrator`.

## Model

| member | source | states |
|---|---|---|
| Auth.RoleLiteral | src/contexts/AuthContext.tsx:3 | the two role literals are "admin" and "intern", one for each role |
| Auth.MockUser | src/contexts/AuthContext.tsx:24-27 | admin is id "1", "John Smith"; intern is id "2", "Sarah Johnson"; each record's role is its own role and its username is that role's literal |
| Auth.CheckCredentials | src/contexts/AuthContext.tsx:35 | the credential test `username === role && password === 'password'`; `Auth.AcceptedUsernames` states which inputs pass it |
| Auth.IsAuthenticated | src/contexts/AuthContext.tsx:53 | `!!user` on a session value; `App.NoContentWithoutAuthentication` ties it to the shell |
| Auth.MockUsersDistinct | src/contexts/AuthContext.tsx:24-27 | the two mock records differ, and so do their ids |
| Auth.AcceptedUsernames | src/contexts/AuthContext.tsx:35 | the check accepts only the usernames "admin" and "intern", each only for its own role, and only with password "password" |
| Auth.Step | src/contexts/AuthContext.tsx:33-49 | choosing a role sets it and keeps the user; a credential check keeps the selected role and installs the mock user only on success; logout and reload give the initial null/null session |
| Auth.ChooseRoleIdempotent | src/contexts/AuthContext.tsx:47-49 | choosing the same role twice gives the same session as choosing it once |
| Auth.LogOutIdempotent | src/contexts/AuthContext.tsx:42-45 | logout from any session gives the initial session, and a second logout changes nothing |
| Auth.RunPreservesAuthentic | src/contexts/AuthContext.tsx:33-49 | any sequence of actions keeps the invariant that a present user is the mock record for its own role |
| Auth.UserProvenance | src/contexts/AuthContext.tsx:35-37 | after any run, a present user is either the starting user or was installed by a run step whose credentials passed the check |
| Auth.UserOnlyAfterSuccessfulLogin | src/contexts/AuthContext.tsx:30-37 | from the initial session, a user is present only after a successful credential check, and it is the mock user for that check's role |
| Auth.AuthProvider.constructor | src/contexts/AuthContext.tsx:30-31 | both cells start out null |
| Auth.AuthProvider.IsSignedIn | src/contexts/AuthContext.tsx:53 | `isAuthenticated` holds if and only if a user is present |
| Auth.AuthProvider.Login | src/contexts/AuthContext.tsx:33-40 | returns true if and only if username == role literal and password == "password"; on success the user becomes `mockUsers[role]`; on failure the user is unchanged; the selected role is never modified |
| Auth.AuthProvider.Logout | src/contexts/AuthContext.tsx:42-45 | both cells become null from any state |
| Auth.AuthProvider.SelectRole | src/contexts/AuthContext.tsx:47-49 | the selected role becomes the given role; the user is unchanged |
| App.Route | src/App.tsx:33-39 | each of the five paths, matched exactly, routes to its own screen; every other path routes to NotFound, so the table is total |
| App.RouteInjectiveOnPaths | src/App.tsx:34-38 | different explicit paths give different screens, and none of them gives NotFound |
| App.AppRoutes | src/App.tsx:20-42 | exactly one of three screens: role selection if and only if there is no user and no role; the login form if and only if there is no user but a role, and its role is exactly the selected one; the shell if and only if a user is present, at the routed page |
| App.NoContentWithoutAuthentication | src/App.tsx:23-31 | the shell (any content page, NotFound included) is shown if and only if the session is authenticated |
| App.ShellIgnoresSelectedRole | src/App.tsx:31-42 | once a user is present, the screen does not depend on the selected role |
| App.AfterLogOutRoleSelection | src/App.tsx:23-24 | after logout or reload, every path, "/" included, shows role selection |
| App.FailedLoginStaysOnForm | src/App.tsx:27-28 | a failed check for the selected role leaves the login form for that role on screen |
| App.SuccessfulLoginOpensShell | src/App.tsx:27-31 | the demo credentials for the selected role move the gate from the login form to the shell |
| App.OnBack | src/App.tsx:28 | the back action's reload gives a freshly initialised provider whose session is null/null, so role selection shows |
| App.SessionWalkthrough | src/App.tsx:20-42 | a sample session, carrying no contract of its own: choose the admin role, fail once with a wrong password, sign in, visit an unknown path (NotFound inside the shell), sign out back to role selection; each step is checked by an assertion on the provider's methods |
| Tools.FilteredTools | src/pages/Tools.tsx:223-229 | the result is an order-preserving subsequence of the tools; a tool is kept if and only if the lower-cased term occurs in its lower-cased name, its description or one of its tags, and the category is "All" or equals the tool's category |
| Tools.InitialFilterKeepsAll | src/pages/Tools.tsx:219-229 | with the initial empty search and category "All", every tool is kept, in order |
| Tools.FilterCaseInsensitive | src/pages/Tools.tsx:224-226 | search terms that lower-case to the same string select the same tools |
| Tools.FeaturedTools | src/pages/Tools.tsx:275 | the featured list is an order-preserving subsequence of the tools, holding exactly the featured ones |
| Tools.Toggled | src/pages/Tools.tsx:231-237 | afterwards the id is bookmarked if and only if it was not before; all other ids keep their membership and their number of occurrences; adding appends at the end, and removing keeps the others' order |
| Tools.ToggledNoDuplicates | src/pages/Tools.tsx:221-236 | a duplicate-free bookmark list stays duplicate-free under a toggle |
| Tools.ToggleTwiceSameMembers | src/pages/Tools.tsx:232-236 | toggling the same id twice restores the set of bookmarked ids |
| Tools.ToggleTwiceFromAbsent | src/pages/Tools.tsx:233-235 | starting from an id that is not bookmarked, toggling twice restores the exact list |
| Tools.ParseTags | src/pages/Tools.tsx:103 | tag k is exactly the k-th comma-separated piece of `Split` with `Trim` applied, so there is one more tag than there are commas; no tag contains a comma or starts or ends with white space |
| Tools.CategoriesCoverTools | src/pages/Tools.tsx:84 | the first category button is "All", and every mock tool's category has a button of its own after it |
| Tools.MatchesSearch | src/pages/Tools.tsx:224-226 | the search test of one tool, on lower-cased name, description and tags; its properties are stated through `Tools.FilteredTools` and `Tools.FilterCaseInsensitive` |
| Tools.MatchesCategory | src/pages/Tools.tsx:227 | the category test: "All" or the tool's own category; stated through `Tools.FilteredTools` |
| Tools.NewTool | src/pages/Tools.tsx:97-104 | the new tool has the given fresh id and the form's name, description, category and url; it is not featured; its tags are the parsed tags field |
| Tools.InternToolsView.constructor | src/pages/Tools.tsx:219-221 | the search starts empty, the category is "All", and tools 1 and 2 are bookmarked |
| Tools.InternToolsView.Visible | src/pages/Tools.tsx:335 | the listed tools are an order-preserving subsequence of the mock tools |
| Tools.InternToolsView.IsBookmarked | src/pages/Tools.tsx:298 | the bookmark icon is filled if and only if the id occurs in the list |
| Tools.InternToolsView.SetSearchTerm | src/pages/Tools.tsx:253 | only the search term changes |
| Tools.InternToolsView.SelectCategory | src/pages/Tools.tsx:263 | only the selected category changes |
| Tools.InternToolsView.ToggleBookmark | src/pages/Tools.tsx:231-237 | the list becomes the toggled list; the id's membership flips and no other id's does; the list stays duplicate-free |
| Tools.AdminToolsView.constructor | src/pages/Tools.tsx:87-94 | the list starts as the mock tools, and the form starts empty |
| Tools.AdminToolsView.EditForm | src/pages/Tools.tsx:133-153 | editing changes the form only |
| Tools.AdminToolsView.AddTool | src/pages/Tools.tsx:96-107 | exactly one tool, built from the old form, is appended at the end; the existing tools are unchanged; the form is reset to empty strings |
| Attendance.InternIds | src/pages/Attendance.tsx:42-45 | every roster intern's id is a key |
| Attendance.MockInternIds | src/pages/Attendance.tsx:21-27 | the roster's ids are exactly 1 to 5, all distinct, so there are as many ids as interns; `totalCount` (line 61, `TotalCount`) is 5 |
| Attendance.MatchesSearch | src/pages/Attendance.tsx:49-50 | the search test of one intern, on lower-cased name and email; stated through `Attendance.FilteredInterns` and `Attendance.EmptySearchShowsAll` |
| Attendance.AbsentCount | src/pages/Attendance.tsx:112 | the "Absent Today" figure `totalCount - presentCount`; `Attendance.CountsInBounds` proves it is never negative and adds up with the present count to the total |
| Attendance.AttendanceRate | src/pages/Attendance.tsx:62 | the rounded rate; `Attendance.CountsInBounds` puts it in 0..100 and `Attendance.RateExtremes` gives 100 and 0 at the extremes |
| Attendance.InitialAttendance | src/pages/Attendance.tsx:41-46 | the initial map's keys are exactly the roster's ids, whatever the random draws |
| Attendance.FilteredInterns | src/pages/Attendance.tsx:48-51 | the result is an order-preserving subsequence of the roster; an intern is kept if and only if the lower-cased term occurs in its lower-cased name or email |
| Attendance.EmptySearchShowsAll | src/pages/Attendance.tsx:40-51 | the initial empty search shows the whole roster |
| Attendance.Flipped | src/pages/Attendance.tsx:53-58 | a present mark becomes absent; anything else, including a missing mark, becomes present; every other key keeps its mark |
| Attendance.FlipTwiceRestores | src/pages/Attendance.tsx:53-58 | toggling a marked intern twice restores the original map |
| Attendance.PresentIds | src/pages/Attendance.tsx:60 | the ids counted are exactly those whose mark is present |
| Attendance.PresentCount | src/pages/Attendance.tsx:60 | the present count is at most the number of keys |
| Attendance.FlipChangesPresentCountByOne | src/pages/Attendance.tsx:56-60 | one toggle lowers the present count by exactly one if the mark was present, and raises it by exactly one otherwise |
| Attendance.CountsInBounds | src/pages/Attendance.tsx:60-62 | with keys exactly the intern ids: 0 <= presentCount <= totalCount; the absent figure (line 112) is never negative and adds up with the present count to the total; the rate is in 0..100 |
| Attendance.RateExtremes | src/pages/Attendance.tsx:62 | the rate is 100 when every intern is present and 0 when none is |
| Attendance.AdminAttendanceView.constructor | src/pages/Attendance.tsx:40-46 | the search starts empty; the marks are the initial map built from the draws, keyed by the roster |
| Attendance.AdminAttendanceView.Rows | src/pages/Attendance.tsx:154 | the rows shown are an order-preserving subsequence of the roster |
| Attendance.AdminAttendanceView.SetSearchTerm | src/pages/Attendance.tsx:148 | searching changes the term and never the marks |
| Attendance.AdminAttendanceView.ToggleAttendance | src/pages/Attendance.tsx:53-58 | the marks become the flipped map; for a roster id the keys stay the roster's ids; the present count moves by exactly one, up or down |
| Percent.RoundedPercent | src/pages/Attendance.tsx:62 | the result is Math.round of part/whole*100 (half rounds up); it lies in 0..100 when part <= whole; it is 100 when part == whole and 0 when part == 0 |
| Percent.RoundedPercentMonotonic | src/pages/Attendance.tsx:62 | a larger part never shows a smaller rounded percentage |
| Roadmap.DifficultyColor | src/pages/Roadmap.tsx:89-96 | on the lower-cased difficulty: beginner gives "bg-success", intermediate "bg-warning", advanced "bg-destructive", and anything else "bg-primary" (each if and only if) |
| Roadmap.DifficultyColorCaseInsensitive | src/pages/Roadmap.tsx:90 | difficulties that lower-case alike get the same colour |
| Roadmap.FixtureDifficultyColors | src/pages/Roadmap.tsx:26 | the fixtures' "Intermediate" gets the warning colour and "Advanced" the destructive one |
| Roadmap.Progress | src/pages/Roadmap.tsx:87 | for totalSteps > 0: progress is at most 100 when completedSteps <= totalSteps; it is 100 when all steps are done and 0 when none is |
| Roadmap.StepTone | src/pages/Roadmap.tsx:148-154 | the row style tests `current` before `completed` |
| Roadmap.StepIcon | src/pages/Roadmap.tsx:157-163 | the icon tests `completed` before `current` |
| Roadmap.ToneAndIconDisagreeOnlyWhenBoth | src/pages/Roadmap.tsx:148-163 | the style and the icon disagree if and only if a step is both current and completed |
| Roadmap.CompletedPrefixCount | src/pages/Roadmap.tsx:24-41 | when exactly the first n steps are completed, the completed count is n |
| Roadmap.NoCurrentCount | src/pages/Roadmap.tsx:64-82 | a step list with no current step has a current count of zero |
| Roadmap.SingleCurrentCount | src/pages/Roadmap.tsx:36 | a single step marked current makes the current count one |
| Roadmap.WellFormedCounts | src/pages/Roadmap.tsx:24-41 | in a roadmap laid out like the fixtures, completedSteps is the number of completed steps, totalSteps is the number of steps, and exactly one step is current |
| Roadmap.FrontendWellFormed | src/pages/Roadmap.tsx:20-42 | Frontend: steps 1-7 are completed, and step 8 is the only current step |
| Roadmap.BackendWellFormed | src/pages/Roadmap.tsx:43-63 | Backend: steps 1-3 are completed, and step 4 is the only current step |
| Roadmap.FullStackWellFormed | src/pages/Roadmap.tsx:64-82 | Full Stack: no step is completed, and step 1 is the only current step |
| Roadmap.FixtureRoadmapsWellFormed | src/pages/Roadmap.tsx:19-83 | in every fixture roadmap the counters agree with the steps, and the one current step is the first uncompleted one |
| Roadmap.SumCompleted | src/pages/Roadmap.tsx:229 | the "Steps Completed" reduce over the roadmaps; `Roadmap.SumCompletedAtMostTotal` bounds it and `Roadmap.FixtureSums` gives 10 |
| Roadmap.SumTotal | src/pages/Roadmap.tsx:235 | the "Total Steps" reduce over the roadmaps; `Roadmap.FixtureSums` gives 30 |
| Roadmap.SumCompletedAtMostTotal | src/pages/Roadmap.tsx:229-235 | when no roadmap claims more completed steps than it has, the completed sum is at most the total sum |
| Roadmap.FixtureSums | src/pages/Roadmap.tsx:228-236 | the overview card shows 10 steps completed out of 30 |
| Roadmap.RoadmapCard.constructor | src/pages/Roadmap.tsx:86 | a card starts collapsed |
| Roadmap.RoadmapCard.ToggleExpanded | src/pages/Roadmap.tsx:137 | the button flips `expanded` |
| Roadmap.RoadmapCard.VisibleSteps | src/pages/Roadmap.tsx:143-145 | every step is listed when the card is expanded, and none when it is collapsed |
| Roadmap.RoadmapCard.ButtonLabel | src/pages/Roadmap.tsx:140 | the caption is "Hide Steps" if and only if the card is expanded |
| Roadmap.PressTwice | src/pages/Roadmap.tsx:86-137 | pressing the button twice on a new card leaves it collapsed, with no steps listed |
| Navigation.HrefsDistinct | src/components/layout/Navigation.tsx:19-27 | the five link targets of `navigationItems` (`NavigationItems`) are pairwise different |
| Navigation.IsActive | src/components/layout/Navigation.tsx:36-38 | a link is active when the pathname equals its target exactly; `Navigation.AtMostOneActive` proves at most one link is active |
| Navigation.AtMostOneActive | src/components/layout/Navigation.tsx:36-38 | for any pathname, at most one link is active |
| Navigation.HrefsAreTheRoutes | src/components/layout/Navigation.tsx:21-25 | a path is a link target if and only if the route table sends it somewhere other than NotFound (so the links are exactly the five routes of src/App.tsx:34-38) |
| Navigation.RoleIcon | src/components/layout/Navigation.tsx:40-42 | admin gets the Shield icon and intern the Users icon |
| Navigation.BrandLabel | src/components/layout/Navigation.tsx:57 | admin gets the label "IMS Admin" and intern "IMS Portal" |
| Navigation.Render | src/components/layout/Navigation.tsx:34-88 | nothing is rendered without a user; otherwise the bar shows the role's brand and icon, the user's name, and the role literal under it; each link is highlighted if and only if the pathname equals its target exactly; the mobile menu is shown if and only if it is open |
| Navigation.NavigationBar.constructor | src/components/layout/Navigation.tsx:31 | the mobile menu starts closed |
| Navigation.NavigationBar.ToggleMobileMenu | src/components/layout/Navigation.tsx:101 | the menu button flips `isMobileMenuOpen` |
| Navigation.NavigationBar.ClickMobileItem | src/components/layout/Navigation.tsx:121-124 | clicking a mobile link closes the menu and navigates to the link's target |
| Navigation.NavigationBar.ClickLogout | src/components/layout/Navigation.tsx:90 | the desktop and mobile logout buttons (lines 90 and 142) run the provider's logout, which clears both cells |
| LoginForm.Classify | src/components/auth/LoginForm.tsx:26-45 | exactly one outcome: a true result gives success, a false result gives failure, an exception gives error |
| LoginForm.ToastFor | src/components/auth/LoginForm.tsx:29-45 | only the success toast is not in the destructive style |
| LoginForm.SuggestedCredentialsAccepted | src/components/auth/LoginForm.tsx:36 | both credential pairs the failure toast suggests pass the check for their own role |
| LoginForm.RoleConfig | src/components/auth/LoginForm.tsx:51-66 | the title is "Administrator Login" for admin and "Intern Login" for intern; admin gets the Shield icon and intern the Users icon, as in the navigation bar |
| LoginForm.DemoHintAccepted | src/components/auth/LoginForm.tsx:118 | the hint's username (the role literal) with "password" passes the check for the form's role, and for no other role |
| LoginForm.Form.constructor | src/components/auth/LoginForm.tsx:16-18 | both fields start empty, and the form is not loading |
| LoginForm.Form.SubmitDisabled | src/components/auth/LoginForm.tsx:111 | the submit button is disabled if and only if the form is loading |
| LoginForm.Form.SetUsername | src/components/auth/LoginForm.tsx:95 | typing changes the username only |
| LoginForm.Form.SetPassword | src/components/auth/LoginForm.tsx:106 | typing changes the password only |
| LoginForm.Form.BeginSubmit | src/components/auth/LoginForm.tsx:24-27 | loading is on, which disables the button, while `login` is pending; the call carries the fields and the form's own `role` prop |
| LoginForm.Form.FinishSubmit | src/components/auth/LoginForm.tsx:28-48 | the reported outcome is the classification of the result, and loading is off afterwards |
| LoginForm.Form.HandleSubmit | src/components/auth/LoginForm.tsx:22-49 | error if and only if the call throws; success if and only if the fields pass the check for the form's role; failure otherwise; the provider's user changes only on success and its selected role never; loading is off afterwards in every outcome |
| Seqs.Filter | src/pages/Tools.tsx:223-229 | `Array.prototype.filter`: an order-preserving subsequence whose elements all satisfy the test, keeping every element's multiplicity when it passes and none when it fails |
| Text.ToLower | src/pages/Tools.tsx:224 | the result has the same length as the input, and each character is lower-cased |
| Text.ToLowerIdempotent | src/pages/Tools.tsx:224 | lower-casing twice is the same as lower-casing once |
| Text.Includes | src/pages/Tools.tsx:224-226 | true if and only if the term occurs at some offset of the string |
| Text.IncludesEmpty | src/pages/Tools.tsx:219 | the empty term occurs in every string |
| Text.Split | src/pages/Tools.tsx:103 | one more piece than there are separators; no piece contains the separator; joining the pieces with the separator gives the input back |
| Text.Trim | src/pages/Tools.tsx:103 | the result is a slice of the input with only white space removed at the two ends; it neither starts nor ends with white space |
| Text.TrimAll | src/pages/Tools.tsx:103 | the `.map(tag => tag.trim())` step: one result per piece, each the piece with `Trim` applied, holding only characters of its own piece and no white space at either end |
| Text.TrimIdempotent | src/pages/Tools.tsx:103 | trimming a trimmed string changes nothing |

## Left out

- Rendering: JSX layout, class names, icons and styling are not modelled. Screens are a datatype, icons an enum and labels strings. The colour class of a link (Navigation.tsx:70-74) becomes a boolean "active" flag.
- Asynchrony: `login` returns a promise and `handleSubmit` awaits it. The model is synchronous. `BeginSubmit` and `FinishSubmit` show the state while the call is pending. An exception thrown by the call is modelled as the `throws` input of `HandleSubmit`, because the current `login` never throws.
- Toasts come from a UI library. They are modelled only as the outcome and the texts they carry.
- `window.location.reload` (App.tsx:28) is browser I/O. It is modelled as a freshly initialised provider (`App.OnBack`), because a reload starts the page over.
- `Math.random` (Attendance.tsx:44) is modelled as one present/absent draw per intern, passed to the constructor.
- `Date.now()` (Tools.tsx:98) is modelled as a fresh-id input of `AddTool`.
- Floating point:
  - tool ratings are left out;
  - the Roadmap `totalProgress` average (Roadmap.tsx:198-200, 222-224) is left out;
  - `Percent.RoundedPercent` uses exact rational arithmetic. Binary floating point could round differently, but only at exact half-way points.
- Percent.RoundedPercent: a zero denominator (NaN in the source) is excluded. Both call sites divide by a fixed non-zero length: 5 interns, and 12, 10 or 8 steps.
- Text.ToLower: lower-cases ASCII letters only. `String.prototype.toLowerCase` also maps other Unicode letters. All fixtures and literals are ASCII, but a typed search term need not be. For example, the KELVIN SIGN U+212A lower-cases to ASCII `k`, so the search "MI\u212AE" finds "Mike Chen" in the app but not in the model.
- Text.Trim: white space is the fixed ECMA-262 list, with the `Zs` category written out as it stands in Unicode 15.
- The Calendar widget, date selection (Attendance.tsx:39, 197-200) and `toLocaleDateString` are left out.
- react-router and `NavLink` internals are left out. The current pathname is a parameter.
- App.Route: matches each path exactly, character for character. The `<Routes>` table of react-router v6 matches case-insensitively by default and allows a trailing slash. So "/Tools" and "/tools/" render the Tools page in the app, but `NotFoundPage` in the model.
- Navigation.HrefsAreTheRoutes: holds for the exact-match table only. In the app "/Tools" reaches the Tools route without being any link's target. Because `isActive` (Navigation.tsx:36-38) compares with `===`, no link is highlighted on that path.
- LoginForm.Form.HandleSubmit: the `required` attributes of the login inputs are browser validation and are not modelled. With an empty field the browser blocks the submit, so `handleSubmit` never runs: no toast is shown and `isLoading` never turns on. The model instead reports `Failed` for an empty username or password. In both the session stays unchanged, because no empty username or password passes the check.
- `useAuth` throwing outside a provider (AuthContext.tsx:63-68) is framework wiring.
- These files are not part of this model: src/pages/Dashboard.tsx, src/pages/Syllabus.tsx, src/components/auth/RoleSelection.tsx and src/pages/NotFound.tsx. They render fixtures, log to the console, or forward a click to `selectRole`.
- The admin/intern view choice of the Tools and Attendance screens (Tools.tsx:393-396, Attendance.tsx:296-301) is the installed user's role. It is the same test as `Navigation.RoleIcon`. The intern attendance view is static.
- Fixture fields that are only displayed are left out: tool ratings and icons, roadmap descriptions, and the intern attendance history.
