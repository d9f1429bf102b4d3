# Smart Farming App: session, navigation and screen state, modelled in Dafny

The app is a single-page React UI, shaped like a phone app, for farmers. There is a login form, a home dashboard, market prices, plant-disease detection from a photo, a crop-advisory question box, a chat panel, scheme listings, a voice-assistant mock, analytics and settings. Nearly all of it is markup and fixed mock data. The behaviour worth stating is the state kept by the `App` component and by a few screens, all in `frontend/App.tsx`.

- `App` keeps the current screen, the optional logged-in user and the dark-mode flag. Its five callbacks are login, navigate, back, theme toggle and logout. `renderScreen` picks the component to mount. The bottom navigation bar appears on four main screens.
- The chat panel keeps a message log, an input and a loading flag.
- The disease-detection screen keeps an image, an "analyzing" flag and a diagnosis.
- The advisory screen keeps a question, an answer and a loading flag.
- The voice assistant keeps a listening flag and a transcript line, driven by a timer.

Each stateful component has the same shape in the model:
- a value type for its state (`AppState`, `ChatState`, ...);
- one pure function per event, which is the specification;
- a `class` with the component's fields, whose methods change exactly those fields and are proved to match the function (`ensures State() == Step(old(State()), ...)`).

The lemmas are about the pure functions. Each asynchronous handler awaits the AI service in the middle. It is split at that `await` into a `Begin...` method, which returns the outbound call as a value, and a `Receive...` method, which takes the service's reply as an arbitrary string. A composite method runs both halves back to back.

For the `App` state, `Navigation.Enabled` says which callbacks the mounted view and the bottom bar actually wire to a button. Runs of enabled events from the initial state give these results:
- every non-login screen has a user;
- the "Coming Soon" placeholder (`INSURANCE`) is never reached;
- every other screen is reachable.

Modules:
- `Wrappers` holds `Option`.
- `JsText` holds `trim` and `split` as JavaScript defines them.
- `Screens` holds the screen and user types, the bottom bar and the `renderScreen` dispatch.
- `LoginForm` holds the login form and the profile it produces.
- `Navigation` holds the `App` state machine.
- `Requests` holds the two calls into the AI service, as values.
- `Chat`, `Disease`, `Advisory` and `Voice` hold the four screens' local state.

Three points where the code does something other than one might expect:
- Logout only sets the screen to login. The stored user is kept (`Navigation.LogoutEffect`). `Navigation.RetainedUserUnobservable` and `Navigation.ReloginReplacesUser` show that the kept user can never be seen.
- `handleNavigate` has no authentication guard (`Navigation.NavigateUnguarded`). The session invariant holds only because the login screen wires nothing but login (`Navigation.LoginScreenOnlyLogsIn`, `Navigation.Reachable`).
- A missing API key does not escape the service as an error. `getClient` throws inside the `try`, so the caller gets the fallback string. This only matters at the service boundary, which is not modelled.

## Model

| member | source | states |
|---|---|---|
| `JsText.TrimStart` | frontend/App.tsx:74 | leading-whitespace removal gives a suffix of the input that does not start with JavaScript whitespace |
| `JsText.TrimStartDropsWhitespace` | frontend/App.tsx:74 | everything leading-whitespace removal cuts off is whitespace |
| `JsText.TrimStartUnique` | frontend/App.tsx:74 | any suffix that cuts off only whitespace and does not start with whitespace is the result of leading-whitespace removal, so the two contracts above determine it |
| `JsText.TrimEnd` | frontend/App.tsx:74 | trailing-whitespace removal gives a prefix of the input that does not end with JavaScript whitespace |
| `JsText.TrimEndDropsWhitespace` | frontend/App.tsx:74 | everything trailing-whitespace removal cuts off is whitespace |
| `JsText.TrimEndUnique` | frontend/App.tsx:74 | any prefix that cuts off only whitespace and does not end with whitespace is the result of trailing-whitespace removal |
| `JsText.Trim` | frontend/App.tsx:74 | `s.trim()` is no longer than `s`, and a non-empty result neither starts nor ends with whitespace |
| `JsText.Blank` | frontend/App.tsx:901 | the `!s.trim()` guard holds for the empty string, and a non-empty blank string starts with whitespace |
| `JsText.TrimStartEmpty` | frontend/App.tsx:74 | only an all-whitespace string is emptied by leading-whitespace removal |
| `JsText.TrimEndEmpty` | frontend/App.tsx:901 | only an all-whitespace string is emptied by trailing-whitespace removal |
| `JsText.BlankIffAllWhitespace` | frontend/App.tsx:74 | the `!s.trim()` guard holds exactly when every character is whitespace |
| `JsText.TrimIsSlice` | frontend/App.tsx:901 | `trim` returns a contiguous slice of its input whose two ends are not whitespace, and everything cut off before and after it is whitespace |
| `JsText.Split` | frontend/App.tsx:766 | `split` on one character returns at least one piece, and no piece contains the separator |
| `JsText.JoinSplit` | frontend/App.tsx:766 | joining the pieces of a split with the separator gives the original string back |
| `JsText.SplitJoin` | frontend/App.tsx:766 | splitting a join of separator-free pieces gives the same pieces back |
| `JsText.SplitLength` | frontend/App.tsx:766 | `split` gives more than one piece exactly when the separator occurs |
| `JsText.Field` | frontend/App.tsx:766 | `s.split(sep)[k]` is defined exactly when the split has more than k pieces, is then the k-th piece, and is `undefined` otherwise |
| `Screens.Language.Code` | frontend/types.ts:16 | each language is stored and sent as its own two-letter code: English as `en`, Hindi as `hi`, Tamil as `ta`, Punjabi as `pa` |
| `Screens.CodeInjective` | frontend/types.ts:16 | different languages have different codes |
| `Screens.NavTargets` | frontend/App.tsx:33-38 | the bottom bar has four buttons, for exactly home, analytics, voice assistant and settings |
| `Screens.HomeTargets` | frontend/App.tsx:469-520 | the home screen navigates through four buttons, to exactly market prices, disease detection, schemes and crop advisory |
| `Screens.ShowBottomNav` | frontend/App.tsx:1098 | the bottom bar is shown exactly when there is a user and the screen is home, analytics, voice assistant or settings |
| `Screens.Render` | frontend/App.tsx:1052-1091 | every screen except `INSURANCE` mounts its own view and `INSURANCE` mounts none; home gets the user, settings the user and the theme, and the advisory screen the user's language code or `"en"` |
| `Screens.RenderDispatch` | frontend/App.tsx:1052-1091 | every screen except `INSURANCE` mounts its own component, and only `INSURANCE` falls to "Coming Soon" |
| `Screens.AdvisoryLanguage` | frontend/App.tsx:1062-1063 | the advisory screen gets the user's language code, or `"en"` when there is no user |
| `Screens.BottomNavClosed` | frontend/App.tsx:33-45 | while the bar is shown the screen is one of its four targets, and pressing any button keeps the bar shown |
| `Screens.BottomNavHighlight` | frontend/App.tsx:46-52 | while the bar is shown, exactly one of its four distinct buttons matches the current screen |
| `LoginForm.Submit` | frontend/App.tsx:355 | the profile carries the chosen language, never an empty name or location, and the typed name and location whenever they are non-empty |
| `LoginForm.SubmitDefaults` | frontend/App.tsx:355 | an empty name becomes "Farmer" and an empty location becomes "Punjab, India"; other text, blanks included, is kept; the language passes through; the profile's name and location are never empty |
| `LoginForm.SubmitInitialForm` | frontend/App.tsx:158-165 | submitting the untouched form gives `Farmer`, English, `Punjab, India` |
| `LoginForm.SubmitIgnoresCredentials` | frontend/App.tsx:162-165 | the phone, the password and the login/sign-up mode do not affect the profile |
| `LoginForm.SubmittableIff` | frontend/App.tsx:355 | the form can produce a profile exactly when the profile's name and location are non-empty |
| `Navigation.Step` | frontend/App.tsx:1034-1075 | only login changes the user and only the toggle changes the theme; login and back show home, navigate shows its target, logout shows login, and the toggle keeps the screen |
| `Navigation.Enabled` | frontend/App.tsx:1052-1100 | login is offered exactly on the login screen with a submittable profile; navigation exactly to the home screen's four quick actions from home and to the bar's four targets while the bar is shown, so never to login or `INSURANCE`; back exactly on every screen but login and home; theme toggle and logout exactly on settings |
| `Navigation.App.constructor` | frontend/App.tsx:1022-1024 | the app starts on the login screen with no user and dark mode off |
| `Navigation.App.HandleLogin` | frontend/App.tsx:1034-1037 | stores the user and shows home; the theme is unchanged |
| `Navigation.App.HandleNavigate` | frontend/App.tsx:1039-1041 | sets exactly the requested screen with no guard; user and theme unchanged |
| `Navigation.App.GoBack` | frontend/App.tsx:1043-1045 | always shows home; user and theme unchanged |
| `Navigation.App.ToggleTheme` | frontend/App.tsx:1047-1049 | negates the dark-mode flag; screen and user unchanged |
| `Navigation.App.Logout` | frontend/App.tsx:1075 | shows the login screen; the user is kept; the theme is unchanged |
| `Navigation.LoginEffect` | frontend/App.tsx:1034-1037 | login sets the user and the home screen, keeps the theme, and makes the bottom bar visible |
| `Navigation.NavigateEffect` | frontend/App.tsx:1039-1041 | navigate sets exactly the target and keeps user and theme; navigating twice equals once; navigating to the current screen changes nothing |
| `Navigation.NavigateUnguarded` | frontend/App.tsx:1039-1041 | without a user, navigating to home still succeeds, which breaks the session invariant |
| `Navigation.BackEffect` | frontend/App.tsx:1043-1045 | back returns to home from every screen and keeps no history |
| `Navigation.LogoutEffect` | frontend/App.tsx:1075 | logout moves to the login screen, keeps the stored user and keeps the theme |
| `Navigation.ToggleThemeEffect` | frontend/App.tsx:1047-1049 | the toggle flips only the dark-mode flag; toggling twice is the identity |
| `Navigation.ReloginReplacesUser` | frontend/App.tsx:1034-1037 | logging in after a logout replaces the kept user with the new one |
| `Navigation.RetainedUserUnobservable` | frontend/App.tsx:1054-1055 | on the login screen, states that differ only in the kept user render alike, hide the bar, offer the same callbacks and lead to the same states |
| `Navigation.LoginScreenOnlyLogsIn` | frontend/App.tsx:1054-1055 | the only callback the login screen offers is login, and it leads home with the submitted user |
| `Navigation.StepKeepsInvariant` | frontend/App.tsx:1052-1100 | every callback the screen offers keeps the session invariant |
| `Navigation.RunKeepsInvariant` | frontend/App.tsx:1052-1100 | every sequence of offered callbacks keeps the session invariant |
| `Navigation.Reachable` | frontend/App.tsx:1052-1100 | in every reachable state: a non-login screen has a user, home and settings are never given a missing user, "Coming Soon" is never shown, and the stored name is non-empty |
| `Navigation.ScreensReachable` | frontend/App.tsx:1052-1091 | every screen except `INSURANCE` is reachable from the initial state through offered callbacks |
| `Navigation.LastNavigationWins` | frontend/App.tsx:1039-1041 | after any non-empty sequence of navigations, the screen is the last target and user and theme are unchanged |
| `Chat.Typed` | frontend/App.tsx:138 | typing replaces the input and leaves the log and the loading flag alone |
| `Chat.Send` | frontend/App.tsx:73-80 | blank input leaves the chat unchanged; otherwise exactly the user's message is appended to an untouched log, the input is cleared and loading starts |
| `Chat.Reply` | frontend/App.tsx:82-83 | exactly the reply is appended as a bot message to an untouched log; the input is kept and loading ends |
| `Chat.Exchange` | frontend/App.tsx:73-84 | blank input leaves the chat unchanged; otherwise the log gains the user's text and then the reply, the input is cleared and loading is off |
| `Chat.TakeTurnEffect` | frontend/App.tsx:73-84 | from any state, even with a reply pending, typing then sending appends exactly that turn's messages; loading stays on only for a blank turn taken while loading |
| `Chat.ConverseAppends` | frontend/App.tsx:73-84 | from any state, after any conversation the log is the earlier log followed by each non-blank question and its reply, in sending order; loading stays on only if it was on and nothing was sent |
| `Chat.QuestionAnswerKeepsLog` | frontend/App.tsx:62-84 | appending a non-blank question and its answer to a well-formed log keeps it well formed |
| `Chat.ExchangeKeepsLog` | frontend/App.tsx:62-84 | an uninterrupted send keeps the log well formed: greeting first, bot and user messages alternating, user messages never blank |
| `Chat.InitialLogWellFormed` | frontend/App.tsx:62-66 | the initial log, the greeting alone, is well formed |
| `Chat.ConversationLog` | frontend/App.tsx:62-84 | any conversation from a well-formed log, such as the initial greeting, keeps it well formed |
| `Chat.InterleavedSends` | frontend/App.tsx:73-84 | two sends before their replies put two user messages next to each other; the first reply clears loading while the second call is pending |
| `Chat.ChatBot.constructor` | frontend/App.tsx:62-66 | the log starts with exactly the greeting; the input is empty; loading is off |
| `Chat.ChatBot.SetInput` | frontend/App.tsx:138 | typing replaces the input only |
| `Chat.ChatBot.BeginSend` | frontend/App.tsx:73-80 | blank input issues no call; otherwise clears the input, appends the user message, sets loading, and issues the advisory call with the text and the panel's language |
| `Chat.ChatBot.ReceiveReply` | frontend/App.tsx:82-83 | appends the reply as a bot message and clears loading |
| `Chat.ChatBot.HandleSend` | frontend/App.tsx:73-84 | the whole handler run without interruption matches `Exchange` |
| `Disease.NoImage` | frontend/App.tsx:763 | the `!image` guard holds exactly when there is no image or the image is the empty string |
| `Disease.FileChanged` | frontend/App.tsx:750-760 | no file changes nothing; otherwise the reader's result, the data URL or none after a failed read, becomes the image and the result is cleared; the analyzing flag is kept |
| `Disease.ImageRemoved` | frontend/App.tsx:811 | the image is cleared; result and analyzing flag are kept |
| `Disease.Cleared` | frontend/App.tsx:844 | image and result are cleared; the analyzing flag is kept |
| `Disease.Analyzing` | frontend/App.tsx:762-767 | with no image, or an empty one, nothing changes; otherwise analyzing starts and image and result are kept |
| `Disease.Diagnosed` | frontend/App.tsx:768-769 | the reply becomes the result, analyzing ends and the image is kept |
| `Disease.Analyzed` | frontend/App.tsx:762-770 | with no image, or an empty one, `analyze` does nothing; otherwise it ends with the reply as the result, not analyzing, and the image kept |
| `Disease.Payload` | frontend/App.tsx:766 | the payload is defined exactly when the data URL has a comma, and is then the second comma-separated field, which contains no comma |
| `Disease.FailedReadDisablesAnalyze` | frontend/App.tsx:750-770 | after a failed read there is no image and no result, and `analyze` is ignored |
| `Disease.RemoveKeepsResult` | frontend/App.tsx:811 | the close button keeps the earlier result, and `analyze` is ignored until a new file is loaded |
| `Disease.LateDiagnosisLandsOnNewImage` | frontend/App.tsx:762-770 | if the image is closed and another loaded while a diagnosis is pending, the late answer is shown for the new image |
| `Disease.PayloadOfDataUrl` | frontend/App.tsx:766 | for a data URL `header,body` with one comma, exactly `body` is sent |
| `Disease.DiseaseDetection.constructor` | frontend/App.tsx:745-747 | starts with no image, not analyzing and no result |
| `Disease.DiseaseDetection.HandleFileChange` | frontend/App.tsx:750-760 | no file leaves the state unchanged; otherwise the image becomes the reader's result, possibly none, and the result is cleared |
| `Disease.DiseaseDetection.RemoveImage` | frontend/App.tsx:811 | clears the image only |
| `Disease.DiseaseDetection.AnalyzeAnother` | frontend/App.tsx:844 | clears the image and the result |
| `Disease.DiseaseDetection.BeginAnalyze` | frontend/App.tsx:762-767 | no image, or an empty one, issues no call; otherwise sets analyzing and sends the data URL's second comma-separated field |
| `Disease.DiseaseDetection.ReceiveDiagnosis` | frontend/App.tsx:768-769 | stores the reply as the result and clears analyzing |
| `Disease.DiseaseDetection.Analyze` | frontend/App.tsx:762-770 | the whole handler run without interruption matches `Analyzed` |
| `Advisory.QueryTyped` | frontend/App.tsx:918 | typing replaces the question and leaves the answer and the loading flag alone |
| `Advisory.Asking` | frontend/App.tsx:900-903 | a blank question changes nothing; otherwise loading starts and question and answer are kept |
| `Advisory.Answered` | frontend/App.tsx:904-905 | the reply becomes the answer, loading ends and the question is kept |
| `Advisory.Ask` | frontend/App.tsx:900-906 | a blank question changes nothing; otherwise the answer is the reply, loading is off and the question stays |
| `Advisory.LatestAnswerWins` | frontend/App.tsx:900-906 | asking again replaces the earlier answer |
| `Advisory.Advisory.constructor` | frontend/App.tsx:896-898 | starts with an empty question, no answer and loading off |
| `Advisory.Advisory.SetQuery` | frontend/App.tsx:918 | typing replaces the question only |
| `Advisory.Advisory.BeginAsk` | frontend/App.tsx:900-903 | a blank question issues no call; otherwise sets loading and issues the advisory call with the question and the screen's language |
| `Advisory.Advisory.ReceiveAnswer` | frontend/App.tsx:904-905 | stores the reply as the answer and clears loading |
| `Advisory.Advisory.HandleAsk` | frontend/App.tsx:900-906 | the whole handler run without interruption matches `Ask` |
| `Voice.Toggled` | frontend/App.tsx:975-987 | the listening flag flips, the transcript reads "Listening..." when listening starts and the prompt when it stops, and starting schedules one more timer |
| `Voice.TimerFired` | frontend/App.tsx:979-982 | a pending timer fires: listening stops, the canned question is shown and one fewer timer is pending |
| `Voice.ApplyKeepsInvariant` | frontend/App.tsx:975-987 | each toggle or timer firing keeps the invariant: the transcript is one of three texts, reads "Listening..." exactly while listening, and a timer is pending while listening |
| `Voice.RunKeepsVoiceInvariant` | frontend/App.tsx:972-987 | every possible sequence of toggles and timer firings keeps the invariant |
| `Voice.ToggleEffect` | frontend/App.tsx:975-987 | tapping starts listening and schedules one timer, or stops listening at once; two taps restore the listening flag |
| `Voice.StoppedTimerStillFires` | frontend/App.tsx:979-985 | after start and stop, the uncancelled timer still replaces the prompt with the canned question |
| `Voice.RestartCutShort` | frontend/App.tsx:979-985 | after start, stop and start, the first timer ends the second session early |
| `Voice.VoiceAssistant.constructor` | frontend/App.tsx:972-973 | starts not listening, with the tap prompt and no timers pending |
| `Voice.VoiceAssistant.ToggleListen` | frontend/App.tsx:975-987 | flips listening, sets the matching transcript, and counts one newly scheduled timer when starting |
| `Voice.VoiceAssistant.TimerFires` | frontend/App.tsx:979-982 | one pending timer fires: listening stops and the canned question is shown |

## Left out

- JSX, styling, icons, layout, charts (`frontend/components/Charts.tsx`) and the mock fixtures: presentation and fixed data, with no behaviour.
- `frontend/services/geminiService.ts` is not part of this model. Its replies, including the fallback strings, enter the model as arbitrary string parameters. The calls are recorded as `Requests` values.
- `FileReader`: the reader's result (a data URL, or nothing after a failed read) is a parameter, and the read is treated as completing at once. `scrollIntoView` and the effect that sets the `dark` class on the document are browser I/O.
- Timing: the three-second delay is not modelled. The timer's firing is the explicit event `Voice.VoiceAssistant.TimerFires`. The other pending service calls are represented only by the split into begin and receive methods. Results arriving after the screen has been left and unmounted are not modelled.
- Disabled buttons are not guards on the handlers: the chat send button while loading or empty, the advisory button while loading, and the analyze button while analyzing. The handlers are modelled as written. The chat's Enter key really does bypass the loading check (`Chat.InterleavedSends`).
- Toggling the home screen's chat panel open and closed (`isChatOpen`, and `showForm` on the login screen) is not modelled. Also not modelled: component lifetime, which resets a screen's local state when the user navigates away and comes back.
- Dark-mode display on the settings screen and the user's name or location shown on screens: presentation of state that the model already holds.
- Login events: when the login screen offers login, the model allows any profile the form can submit. The form's own editing steps, which set each field, are plain assignments and are not modelled as events.
