/** The FAQ chat widget as a pure state machine: its session state, the answer
    lookup, the view the state renders, and the events the view offers. */
module Faq {
  import opened JsObject
  import opened KnowledgeBase

  datatype Sender = User | Bot

  datatype Message = Message(sender: Sender, text: string)

  /** The widget's state hooks, plus the number of reset timers that a close
      has scheduled and that have not fired yet. */
  datatype Session = Session(
    open: bool,
    selectedCategory: Option<string>,
    messages: seq<Message>,
    showQuestions: bool,
    pendingResets: nat)

  /** The values the state hooks start with; no timer is pending. */
  function Initial(): (r: Session)
    ensures Inv(r)
    ensures View(r) == Done(Closed)
    ensures View(r.(open := true)) == Done(Window([], CategoryList(Categories())))
  {
    Session(false, None, [], true, 0)
  }

  /** JavaScript truthiness of a `string | null`: null and "" are both falsy. */
  predicate Chosen(sel: Option<string>)
    ensures sel == None ==> !Chosen(sel)
    ensures sel == Some("") ==> !Chosen(sel)
    ensures sel.Some? && sel.value != "" ==> Chosen(sel)
  {
    sel.Some? && sel.value != ""
  }

  /** A computation that either yields a value or throws a TypeError. */
  datatype Outcome<T> = Done(value: T) | TypeError

  /** The user/bot pair one question click appends to the transcript. */
  function Exchange(question: string, answer: string): seq<Message>
  {
    [Message(User, question), Message(Bot, answer)]
  }

  /** `selectedCategory ? qaData[selectedCategory][question] : ""`. Indexing
      an undefined category throws; an undefined answer is shown as nothing,
      which the model writes as "". */
  function Answer(sel: Option<string>, question: string): (r: Outcome<string>)
    ensures !Chosen(sel) ==> r == Done("")
    ensures Chosen(sel) ==> (r.TypeError? <==> sel.value !in QaData())
    ensures Chosen(sel) && sel.value in QaData() ==>
      r == Done(if question in QaData()[sel.value] then QaData()[sel.value][question] else "")
  {
    if !Chosen(sel) then Done("")
    else match Get(Table, sel.value)
      case None => TypeError
      case Some(category) =>
        Done(match Get(category, question) case Some(a) => a case None => "")
  }

  /** A click on one of the widget's controls, or the firing of a reset timer. */
  datatype Event =
    | OpenClick
    | CloseClick
    | ResetFires
    | CategoryClick(category: string)
    | QuestionClick(question: string)
    | BackToQuestionsClick
    | BackToCategoriesClick

  /** The state after one event. A click handler that throws changes nothing. */
  function Apply(s: Session, e: Event): (r: Session)
    ensures !e.ResetFires? ==> s.messages <= r.messages
    ensures e.ResetFires? && s.pendingResets > 0 ==>
      r == Initial().(open := s.open, pendingResets := s.pendingResets - 1)
    ensures r.open == (if e.OpenClick? then true else if e.CloseClick? then false else s.open)
  {
    match e
    case OpenClick => s.(open := true)
    case CloseClick => s.(open := false, pendingResets := s.pendingResets + 1)
    case ResetFires =>
      if s.pendingResets == 0 then s
      else s.(selectedCategory := None, messages := [], showQuestions := true,
               pendingResets := s.pendingResets - 1)
    case CategoryClick(c) => s.(selectedCategory := Some(c), showQuestions := true)
    case QuestionClick(q) =>
      (match Answer(s.selectedCategory, q)
       case TypeError => s
       case Done(a) => s.(messages := s.messages + Exchange(q, a), showQuestions := false))
    case BackToQuestionsClick => s.(showQuestions := true)
    case BackToCategoriesClick => s.(selectedCategory := None)
  }

  /** The sub-view below the transcript. The question list comes with a
      back-to-categories control; the answer panel holds only a
      back-to-questions control. */
  datatype Panel =
    | CategoryList(categories: seq<string>)
    | QuestionList(questions: seq<string>)
    | AnswerPanel

  /** The floating open button is always shown; the chat window only when open. */
  datatype Screen = Closed | Window(transcript: seq<Message>, panel: Panel)

  /** What a state renders; `Object.keys` of an undefined category throws. */
  function View(s: Session): (r: Outcome<Screen>)
    ensures !s.open ==> r == Done(Closed)
    ensures r.Done? && r.value.Window? ==> s.open && r.value.transcript == s.messages
    ensures s.open && !Chosen(s.selectedCategory) ==>
      r == Done(Window(s.messages, CategoryList(Categories())))
    ensures s.open && Chosen(s.selectedCategory) && s.showQuestions ==>
      (r.TypeError? <==> s.selectedCategory.value !in QaData())
    ensures s.open && Chosen(s.selectedCategory) && s.showQuestions && r.Done? ==>
      r.value.Window? && r.value.panel.QuestionList? &&
      r.value.panel.questions == Keys(Get(Table, s.selectedCategory.value).value) &&
      forall q :: q in r.value.panel.questions <==> q in QaData()[s.selectedCategory.value]
    ensures s.open && Chosen(s.selectedCategory) && !s.showQuestions ==>
      r == Done(Window(s.messages, AnswerPanel))
  {
    if !s.open then Done(Closed)
    else if !Chosen(s.selectedCategory) then Done(Window(s.messages, CategoryList(Keys(Table))))
    else if s.showQuestions then
      (match Get(Table, s.selectedCategory.value)
       case None => TypeError
       case Some(category) => Done(Window(s.messages, QuestionList(Keys(category)))))
    else Done(Window(s.messages, AnswerPanel))
  }

  /** The controls a panel shows, each with the event its click raises. */
  predicate Offers(p: Panel, e: Event)
    ensures p.CategoryList? ==>
      (Offers(p, e) <==> e.CloseClick? || (e.CategoryClick? && e.category in p.categories))
    ensures p.QuestionList? ==>
      (Offers(p, e) <==> e.CloseClick? || e.BackToCategoriesClick? ||
                         (e.QuestionClick? && e.question in p.questions))
    ensures p.AnswerPanel? ==> (Offers(p, e) <==> e.CloseClick? || e.BackToQuestionsClick?)
  {
    match e
    case CloseClick => true
    case CategoryClick(c) => p.CategoryList? && c in p.categories
    case QuestionClick(q) => p.QuestionList? && q in p.questions
    case BackToCategoriesClick => p.QuestionList?
    case BackToQuestionsClick => p.AnswerPanel?
    case _ => false
  }

  /** An event can happen in a state: the open button is always on screen, a
      timer fires only when one is pending, and any other click needs its
      control in the rendered window. */
  predicate Enabled(s: Session, e: Event)
    ensures e.OpenClick? ==> Enabled(s, e)
    ensures e.ResetFires? ==> (Enabled(s, e) <==> s.pendingResets > 0)
    ensures e.CloseClick? ==> (Enabled(s, e) <==> s.open && View(s).Done?)
    ensures e.CategoryClick? ==>
      (Enabled(s, e) <==> s.open && !Chosen(s.selectedCategory) && e.category in Categories())
    ensures e.QuestionClick? ==>
      (Enabled(s, e) <==>
         (s.open && Chosen(s.selectedCategory) && s.showQuestions &&
          s.selectedCategory.value in QaData() && e.question in QaData()[s.selectedCategory.value]))
    ensures e.BackToCategoriesClick? ==>
      (Enabled(s, e) <==>
         (s.open && Chosen(s.selectedCategory) && s.showQuestions &&
          s.selectedCategory.value in QaData()))
    ensures e.BackToQuestionsClick? ==>
      (Enabled(s, e) <==> s.open && Chosen(s.selectedCategory) && !s.showQuestions)
  {
    match e
    case OpenClick => true
    case ResetFires => s.pendingResets > 0
    case _ => View(s).Done? && View(s).value.Window? && Offers(View(s).value.panel, e)
  }

  /** The state after a sequence of events. */
  function Run(s: Session, es: seq<Event>): Session
    decreases |es|
  {
    if es == [] then s else Run(Apply(s, es[0]), es[1..])
  }

  /** Every event of the sequence is enabled when it happens. */
  predicate Trace(s: Session, es: seq<Event>)
    decreases |es|
  {
    es == [] || (Enabled(s, es[0]) && Trace(Apply(s, es[0]), es[1..]))
  }

  /** The states that some run of the widget, from its initial state, reaches. */
  ghost predicate Reachable(s: Session)
  {
    exists es :: Trace(Initial(), es) && Run(Initial(), es) == s
  }

  /** `answer` is what knowledge base `kb` says to `question` in some category. */
  ghost predicate IsFaqAnswer(kb: map<string, map<string, string>>, question: string, answer: string)
  {
    exists c :: c in kb && question in kb[c] && kb[c][question] == answer
  }

  /** A transcript of user/bot pairs, each bot answer taken from `kb`. */
  ghost predicate Transcript(kb: map<string, map<string, string>>, m: seq<Message>)
    decreases |m|
  {
    m == [] ||
    (|m| >= 2 && m[0].sender == User && m[1].sender == Bot &&
     IsFaqAnswer(kb, m[0].text, m[1].text) && Transcript(kb, m[2..]))
  }

  /** What every reachable state satisfies. */
  ghost predicate Inv(s: Session)
  {
    (s.selectedCategory.Some? ==>
       Chosen(s.selectedCategory) && s.selectedCategory.value in Categories()) &&
    (!s.showQuestions ==> s.selectedCategory.Some?) &&
    Transcript(QaData(), s.messages)
  }

  lemma {:induction false} TranscriptAppend(kb: map<string, map<string, string>>, m: seq<Message>,
                                             question: string, answer: string)
    requires Transcript(kb, m) && IsFaqAnswer(kb, question, answer)
    ensures Transcript(kb, m + Exchange(question, answer))
    decreases |m|
  {
    var x := Exchange(question, answer);
    if m == [] {
      assert m + x == x && x[2..] == [];
    } else {
      var mx := m + x;
      assert mx[0] == m[0] && mx[1] == m[1];
      assert mx[2..] == m[2..] + x;
      TranscriptAppend(kb, m[2..], question, answer);
    }
  }

  /** Every enabled event keeps the invariant. */
  lemma StepInv(s: Session, e: Event)
    requires Inv(s) && Enabled(s, e)
    ensures Inv(Apply(s, e))
  {
    match e
    case CategoryClick(c) =>
      CategoriesWellFormed();
    case QuestionClick(q) =>
      var c := s.selectedCategory.value;
      assert q in QaData()[c];
      TranscriptAppend(QaData(), s.messages, q, QaData()[c][q]);
    case _ =>
  }

  lemma {:induction false} TraceInv(s: Session, es: seq<Event>)
    requires Inv(s) && Trace(s, es)
    ensures Inv(Run(s, es))
    decreases |es|
  {
    if es != [] {
      StepInv(s, es[0]);
      TraceInv(Apply(s, es[0]), es[1..]);
    }
  }

  lemma ReachableInv(s: Session)
    requires Reachable(s)
    ensures Inv(s)
  {
    var es :| Trace(Initial(), es) && Run(Initial(), es) == s;
    assert Inv(Initial());
    TraceInv(Initial(), es);
  }

  lemma {:induction false} RunAppend(s: Session, es: seq<Event>, e: Event)
    ensures Run(s, es + [e]) == Apply(Run(s, es), e)
    ensures Trace(s, es + [e]) <==> Trace(s, es) && Enabled(Run(s, es), e)
    decreases |es|
  {
    if es == [] {
      assert [e][1..] == [];
    } else {
      assert (es + [e])[1..] == es[1..] + [e];
      RunAppend(Apply(s, es[0]), es[1..], e);
    }
  }

  /** The initial state is reachable: the empty run stays there. */
  lemma InitialReachable()
    ensures Reachable(Initial())
  {
    assert Trace(Initial(), []) && Run(Initial(), []) == Initial();
  }

  /** Every state an enabled event leads to from a reachable one is reachable. */
  lemma ReachableStep(s: Session, e: Event)
    requires Reachable(s) && Enabled(s, e)
    ensures Reachable(Apply(s, e))
  {
    var es :| Trace(Initial(), es) && Run(Initial(), es) == s;
    RunAppend(Initial(), es, e);
  }

  /** A question the widget offers is a key of the selected category, and its
      click appends that category's answer for it after the question. */
  lemma OfferedQuestionIsAnswered(s: Session, q: string)
    requires Reachable(s) && Enabled(s, QuestionClick(q))
    ensures s.selectedCategory.Some?
    ensures s.selectedCategory.value in QaData() && q in QaData()[s.selectedCategory.value]
    ensures Apply(s, QuestionClick(q)) ==
      s.(messages := s.messages + Exchange(q, QaData()[s.selectedCategory.value][q]),
         showQuestions := false)
  {
    ReachableInv(s);
  }

  /** A reachable state always renders: no TypeError is thrown. An open
      window's question list holds distinct questions. */
  lemma ReachableRenders(s: Session)
    requires Reachable(s)
    ensures View(s).Done?
    ensures View(s).value.Window? && View(s).value.panel.QuestionList? ==>
      Distinct(View(s).value.panel.questions)
  {
    ReachableInv(s);
    if s.open && Chosen(s.selectedCategory) && s.showQuestions {
      QuestionsDistinct(s.selectedCategory.value);
    }
  }

  /** Closing and then letting the reset timer fire restores the initial
      session; reopening then shows the category list and an empty transcript. */
  lemma CloseResetReopen(s: Session)
    ensures Run(s, [CloseClick, ResetFires]) == Initial().(pendingResets := s.pendingResets)
    ensures View(Run(s, [CloseClick, ResetFires, OpenClick])) ==
      Done(Window([], CategoryList(Categories())))
  {
  }

  /** Opening does not cancel a pending reset: close, reopen and pick a
      category, and the reset timer of the earlier close then clears the
      reopened session while the window is still open. */
  lemma LateResetClearsReopenedSession()
    ensures var es := [OpenClick, CloseClick, OpenClick, CategoryClick("Fees")];
      var s := Run(Initial(), es);
      Trace(Initial(), es) && s.open && s.selectedCategory == Some("Fees") &&
      Enabled(s, ResetFires) && Apply(s, ResetFires).open &&
      Apply(s, ResetFires).selectedCategory == None
  {
    var s1 := Apply(Initial(), OpenClick);
    var s2 := Apply(s1, CloseClick);
    var s3 := Apply(s2, OpenClick);
    var s4 := Apply(s3, CategoryClick("Fees"));
    CategoryOrder();
    assert Enabled(s3, CategoryClick("Fees"));
    assert Run(s4, []) == s4;
    assert Trace(s4, []);
  }
}
