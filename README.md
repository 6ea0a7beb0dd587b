# FAQ chat widget of the Sāṅkhya Academy site, in Dafny

The site's chat widget (`src/Chatbot.tsx`) answers frequently asked questions
from a fixed two-level knowledge base, `qaData`. The visitor picks a category,
then a question. The widget appends the question and its canned answer to a
transcript and offers a way back to the questions or to the categories.
Closing the window schedules a reset of the session.

The project models that component:

- `js_object.dfy`, module `JsObject`. A string-keyed object literal is an
  ordered list of properties. `Keys` gives `Object.keys`. `Get` is property
  access, where `None` is `undefined` and a later binding of the same name
  wins. `AsMap` is the map the object denotes.
- `knowledge_base.dfy`, module `KnowledgeBase`. It holds `qaData` exactly as
  written: six categories and eighteen question/answer entries. It also holds
  `categories` (`Object.keys(qaData)`) and `QaData()`, the same data as a
  `map<string, map<string, string>>`.
- `faq.dfy`, module `Faq`. The pure model:
  - the session state, a `Session` value;
  - the answer lookup of `handleQuestionClick`, `Answer`;
  - each handler as a transition, `Apply`;
  - the three-way view selection, `View`;
  - the controls each view offers, `Offers` and `Enabled`;
  - runs of events from the initial state, `Run`, `Trace` and `Reachable`;
  - an invariant, `Inv`, that every reachable state satisfies.
- `chatbot.dfy`, module `Widget`. Class `Chatbot` has the four state hooks
  as fields: `open`, `selectedCategory`, `messages` and `showQuestions`. A
  fifth field, `pendingResets`, counts the reset callbacks that `handleClose`
  has scheduled and that have not run yet. There is one method per handler.
  Each method states which fields it changes and which it leaves alone, and
  it is proved equal to `Faq.Apply` on the corresponding event. Two client
  methods run scenarios on a fresh widget.

JavaScript details the model keeps:
- `selectedCategory` is tested for truthiness (`Chosen`), so `""` acts like
  `null`.
- `qaData[c]` for a truthy `c` that is not a category is `undefined`.
  Indexing it throws a `TypeError`. In the click handler this happens before
  any state is set, so nothing changes. When rendering,
  `Object.keys(undefined)` throws the same way (`Outcome.TypeError`).
- An unknown question under a known category gives an `undefined` answer. It
  renders as nothing, and the model stores it as `""`.

The delayed reset is an explicit second step. `Close` increments
`pendingResets`. `ResetTimerFires`, which needs a pending reset, applies the
reset. Opening does not cancel a pending reset, as in the code. So
`Faq.LateResetClearsReopenedSession` shows a reachable run that is cleared
while the window is open: open, close, reopen, pick a category, then the
first close's timer fires.

The handlers validate nothing:
- `handleCategorySelect` accepts any string; nothing rejects an unknown
  category.
- A question click with no category selected appends the question with an
  empty answer. It is not rejected.
- A click on an unknown question appends it with an `undefined` answer. It is
  not rejected.
- Back-to-questions does not require a category.
- Opening does not cancel the pending reset.

## Model

| member | source | states |
|---|---|---|
| `JsObject.Keys` | src/Chatbot.tsx:38 | `Object.keys` lists one name per written property, the i-th name being the i-th property's, in the order written |
| `JsObject.Get` | src/Chatbot.tsx:61 | reading property `k` of an object literal is defined exactly when `k` is one of its keys, and gives a value written for `k` |
| `JsObject.GetDistinct` | src/Chatbot.tsx:5-36 | when the keys are distinct, reading a key gives the value written beside it, both through property access and in the map the object denotes |
| `KnowledgeBase.Categories` | src/Chatbot.tsx:38 | `categories` has one entry per category of `qaData`, and a name is in it exactly when `qaData[name]` is defined |
| `KnowledgeBase.QaData` | src/Chatbot.tsx:5-38 | the categories of the knowledge-base map are exactly `Object.keys(qaData)` |
| `KnowledgeBase.CategoryOrder` | src/Chatbot.tsx:38 | the category list is Admissions, Fees, Teaching, Timings, Results, General, in declaration order |
| `KnowledgeBase.CategoriesWellFormed` | src/Chatbot.tsx:5-38 | category names are distinct and non-empty, so a selected category is always truthy |
| `KnowledgeBase.QuestionsDistinct` | src/Chatbot.tsx:5-36 | every category exists as a property, and its question keys are distinct |
| `KnowledgeBase.EntryIsReadable` | src/Chatbot.tsx:5-36 | every question/answer pair written in `qaData` is what the map gives for that category and question |
| `KnowledgeBase.ContactQuestionShared` | src/Chatbot.tsx:10-34 | "How can I contact support?" is a question of both Admissions and General, with the same answer |
| `KnowledgeBase.GradeQuestionShared` | src/Chatbot.tsx:9-17 | "What grade levels do you cover?" is a question of both Admissions and Teaching, with the same answer |
| `Faq.Initial` | src/Chatbot.tsx:46-49 | the initial state satisfies the invariant and shows no window; opening it shows the category list with an empty transcript |
| `Faq.Chosen` | src/Chatbot.tsx:61 | the truthiness test of `selectedCategory` (also `!selectedCategory` at line 157): `null` and `""` are falsy, every other string is truthy |
| `Faq.Answer` | src/Chatbot.tsx:61 | with no truthy category the answer is ""; with a truthy category, it throws exactly when the category is not in the knowledge base; otherwise it is `qaData[c][q]`, or "" when `q` is not a question of `c` |
| `Faq.Apply` | src/Chatbot.tsx:60-98 | every event except a reset keeps the old transcript as a prefix; a reset leaves `open` as it was and restores the initial session with one fewer timer pending; only open and close change `open` |
| `Faq.View` | src/Chatbot.tsx:135-203 | closed shows no window; an open window always shows the whole transcript; with no category it lists all categories in declaration order; with a category and `showQuestions` it lists exactly that category's questions in `Object.keys` order, or throws if the category is unknown; otherwise it shows only the back-to-questions panel |
| `Faq.Offers` | src/Chatbot.tsx:119-200 | the category list offers exactly the close button and its category buttons; the question list offers close, its question buttons and back-to-categories; the answer panel offers close and back-to-questions |
| `Faq.Enabled` | src/Chatbot.tsx:94-200 | the open button is always clickable; a reset fires only when one is pending; close needs a rendered window; a category click needs the category list and a listed category; a question click needs the question list of a known category and one of its questions; back-to-categories needs that question list; back-to-questions needs a selected category with the question list hidden |
| `Faq.TranscriptAppend` | src/Chatbot.tsx:62-66 | appending a question and its knowledge-base answer keeps the transcript a sequence of user/bot pairs whose answers come from the knowledge base |
| `Faq.StepInv` | src/Chatbot.tsx:157-203 | every event the rendered window offers keeps the invariant: a selected category is a known, non-empty one; a hidden question list implies a selection; the transcript is made of knowledge-base pairs |
| `Faq.TraceInv` | src/Chatbot.tsx:46-98 | every run of offered events keeps the invariant |
| `Faq.ReachableInv` | src/Chatbot.tsx:46-98 | every reachable state satisfies the invariant |
| `Faq.InitialReachable` | src/Chatbot.tsx:46-49 | the initial state is reachable, by the empty run |
| `Faq.ReachableStep` | src/Chatbot.tsx:46-98 | an offered event from a reachable state leads to a reachable state |
| `Faq.OfferedQuestionIsAnswered` | src/Chatbot.tsx:176-183 | in a reachable state, a question the widget lists is a key of the selected category, and clicking it appends exactly `{user, q}` and then `{bot, qaData[c][q]}` and hides the question list |
| `Faq.ReachableRenders` | src/Chatbot.tsx:157-203 | no reachable state throws while rendering, and a listed question list has no duplicates |
| `Faq.CloseResetReopen` | src/Chatbot.tsx:71-78 | close followed by the reset restores the initial session, apart from the other pending timers; reopening then shows the category list and an empty transcript |
| `Faq.LateResetClearsReopenedSession` | src/Chatbot.tsx:73-98 | open, close, reopen and picking a category is a valid run, and the first close's reset then clears the selection while the window stays open |
| `Widget.Chatbot.constructor` | src/Chatbot.tsx:46-49 | closed, no category, empty transcript, question list shown, no reset pending |
| `Widget.Chatbot.Open` | src/Chatbot.tsx:98 | only `open` becomes true |
| `Widget.Chatbot.Close` | src/Chatbot.tsx:71-78 | `open` becomes false and one reset is scheduled; the session is otherwise unchanged |
| `Widget.Chatbot.ResetTimerFires` | src/Chatbot.tsx:73-77 | no category, empty transcript, question list shown; `open` unchanged |
| `Widget.Chatbot.SelectCategory` | src/Chatbot.tsx:81-84 | the category becomes selected and the question list is shown; the transcript is untouched |
| `Widget.Chatbot.HandleQuestionClick` | src/Chatbot.tsx:60-68 | throws, changing nothing, exactly when the lookup throws; otherwise the old transcript is a prefix, then come `{user, q}` and `{bot, answer}`, two messages in all, and the question list is hidden; the category is unchanged |
| `Widget.Chatbot.BackToQuestions` | src/Chatbot.tsx:87-89 | only `showQuestions` becomes true |
| `Widget.Chatbot.BackToCategories` | src/Chatbot.tsx:188 | only the selected category is cleared |
| `Widget.AskContactSupport` | src/Chatbot.tsx:60-68 | opening, picking General and asking the contact question gives exactly that question and its answer as the transcript, shown above the back-to-questions panel |
| `Widget.CloseAndReopen` | src/Chatbot.tsx:71-78 | after a question, close, the reset and reopen, the window shows the category list and an empty transcript |

## Left out

- The reset's 300 ms delay. Timing is not modelled: the reset is a separate
  event that can fire at any point after its close, in order.
- Auto-scrolling of the chat body, the framer-motion animations and all
  styling and markup text. These are DOM and presentation work. In
  particular, the model treats a closing window as gone at once. It does not
  show the window during its exit animation, and it offers no clicks inside it.
- `Faq.Answer`: an `undefined` answer is stored as `""`, not as a distinct
  value. The transcript text is only ever rendered, and both render as
  nothing.
- `JsObject.Keys`: integer-like keys, which `Object.keys` would list first,
  are not modelled. No key of `qaData` is integer-like.
- Properties inherited from `Object.prototype` are not modelled, for example
  `qaData["toString"]`. Only own properties are looked up. No control offers
  such a key.
- The rest of the site is outside this model:
  - page scroll-spy, body scroll locking and hero transitions (`src/App.tsx`);
  - form submission over the network (`src/App.tsx`, `src/AdmnForm.tsx`);
  - charts and their observers (`src/CoursesSection.tsx`);
  - floating-point animation (`src/AnimatedSymbols.tsx`);
  - gallery scrolling (`src/ImageGallery.tsx`);
  - static sections (`src/FeaturesSection.tsx`, `src/AboutSection.tsx`).
