/** The FAQ chat widget as the component holds it: four state hooks that its
    event handlers update in place, and the reset timers a close schedules. */
module Widget {
  import opened JsObject
  import opened KnowledgeBase
  import opened Faq

  class Chatbot {
    var open: bool
    var selectedCategory: Option<string>
    var messages: seq<Message>
    var showQuestions: bool
    /** Reset callbacks scheduled by a close that have not run yet. */
    var pendingResets: nat

    /** The component's state as a value of the pure model. */
    function Snapshot(): Session
      reads this
    {
      Session(open, selectedCategory, messages, showQuestions, pendingResets)
    }

    /** The initial values of the four state hooks; no timer is pending. */
    constructor ()
      ensures !open && selectedCategory == None && messages == [] && showQuestions
      ensures pendingResets == 0
      ensures Snapshot() == Initial()
    {
      open := false;
      selectedCategory := None;
      messages := [];
      showQuestions := true;
      pendingResets := 0;
    }

    /** The floating button's handler: only `open` becomes true. */
    method Open()
      modifies this
      ensures open
      ensures selectedCategory == old(selectedCategory) && messages == old(messages)
      ensures showQuestions == old(showQuestions) && pendingResets == old(pendingResets)
      ensures Snapshot() == Apply(old(Snapshot()), OpenClick)
    {
      open := true;
    }

    /** `handleClose`: hides the window and schedules one reset; the session
        itself is left as it is until that reset runs. */
    method Close()
      modifies this
      ensures !open && pendingResets == old(pendingResets) + 1
      ensures selectedCategory == old(selectedCategory) && messages == old(messages)
      ensures showQuestions == old(showQuestions)
      ensures Snapshot() == Apply(old(Snapshot()), CloseClick)
    {
      open := false;
      pendingResets := pendingResets + 1;
    }

    /** The reset callback of `handleClose`, run when its timer fires: the
        session returns to its initial values; `open` is not touched. */
    method ResetTimerFires()
      requires pendingResets > 0
      modifies this
      ensures selectedCategory == None && messages == [] && showQuestions
      ensures open == old(open) && pendingResets == old(pendingResets) - 1
      ensures Snapshot() == Apply(old(Snapshot()), ResetFires)
    {
      selectedCategory := None;
      messages := [];
      showQuestions := true;
      pendingResets := pendingResets - 1;
    }

    /** `handleCategorySelect`: the category becomes selected and its question
        list is shown; the transcript is kept. */
    method SelectCategory(cat: string)
      modifies this
      ensures selectedCategory == Some(cat) && showQuestions
      ensures messages == old(messages) && open == old(open)
      ensures pendingResets == old(pendingResets)
      ensures Snapshot() == Apply(old(Snapshot()), CategoryClick(cat))
    {
      selectedCategory := Some(cat);
      showQuestions := true;
    }

    /** `handleQuestionClick`: appends the question and then its answer, and
        hides the question list. When the selected category is not in the
        knowledge base the lookup throws before any state is set, and
        `thrown` is true. */
    method HandleQuestionClick(question: string) returns (thrown: bool)
      modifies this
      ensures thrown <==> Answer(old(selectedCategory), question).TypeError?
      ensures thrown ==> messages == old(messages) && showQuestions == old(showQuestions)
      ensures !thrown ==> |messages| == |old(messages)| + 2 && old(messages) <= messages
      ensures !thrown ==>
        messages[|messages| - 2..] ==
          Exchange(question, Answer(old(selectedCategory), question).value)
      ensures !thrown ==> !showQuestions
      ensures selectedCategory == old(selectedCategory) && open == old(open)
      ensures pendingResets == old(pendingResets)
      ensures Snapshot() == Apply(old(Snapshot()), QuestionClick(question))
    {
      var answer := Answer(selectedCategory, question);
      if answer.TypeError? {
        return true;
      }
      messages := messages + [Message(User, question), Message(Bot, answer.value)];
      showQuestions := false;
      return false;
    }

    /** `handleBackToQuestions`: only `showQuestions` becomes true. */
    method BackToQuestions()
      modifies this
      ensures showQuestions
      ensures selectedCategory == old(selectedCategory) && messages == old(messages)
      ensures open == old(open) && pendingResets == old(pendingResets)
      ensures Snapshot() == Apply(old(Snapshot()), BackToQuestionsClick)
    {
      showQuestions := true;
    }

    /** The back-to-categories button's handler: only the selection is cleared. */
    method BackToCategories()
      modifies this
      ensures selectedCategory == None
      ensures showQuestions == old(showQuestions) && messages == old(messages)
      ensures open == old(open) && pendingResets == old(pendingResets)
      ensures Snapshot() == Apply(old(Snapshot()), BackToCategoriesClick)
    {
      selectedCategory := None;
    }
  }

  /** A visitor opens the widget, picks General and asks how to contact
      support: the transcript holds exactly that question and its answer, and
      the window shows the back-to-questions control. */
  method AskContactSupport() returns (transcript: seq<Message>, screen: Outcome<Screen>)
    ensures transcript == Exchange("How can I contact support?",
                                   "Phone: +91-93807 38490, Email: admin@saankhya.academy")
    ensures screen == Done(Window(transcript, AnswerPanel))
  {
    var bot := new Chatbot();
    bot.Open();
    bot.SelectCategory("General");
    var thrown := bot.HandleQuestionClick("How can I contact support?");
    transcript := bot.messages;
    screen := View(bot.Snapshot());
  }

  /** After a question, closing the widget and letting the reset run, a
      reopened widget shows the category list and an empty transcript. */
  method CloseAndReopen() returns (screen: Outcome<Screen>)
    ensures screen == Done(Window([], CategoryList(Categories())))
  {
    var bot := new Chatbot();
    bot.Open();
    bot.SelectCategory("Fees");
    var thrown := bot.HandleQuestionClick("How much are the fees?");
    bot.Close();
    bot.ResetTimerFires();
    bot.Open();
    screen := View(bot.Snapshot());
  }
}
