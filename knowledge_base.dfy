/** The FAQ widget's static knowledge base: category, then question, then
    canned answer, as written in the source. */
module KnowledgeBase {
  import opened JsObject

  /** `qaData`: the categories in declaration order. */
  const Table: Object<Object<string>> := [
    ("Admissions", Admissions),
    ("Fees", Fees),
    ("Teaching", Teaching),
    ("Timings", Timings),
    ("Results", Results),
    ("General", General)
  ]

  /** The questions of each category, in declaration order, with their answers. */
  const Admissions: Object<string> := [
    ("What is the admission process?",
     "The admission process is simple. Parents can fill out our registration form online or visit our centre directly. After a short assessment, your child will be placed in the most suitable batch."),
    ("Which boards do you cover?",
     "We teach students from multiple boards including CBSE, ICSE, State Boards, and select international boards (IGCSE/IB) depending on demand."),
    ("What grade levels do you cover?",
     "We provide coaching for students from Grade 8 up to Grade 12, including both school syllabus support and competitive exam preparation."),
    ("How can I contact support?",
     "Phone: +91-93807 38490, Email: admin@saankhya.academy")
  ]

  const Fees: Object<string> := [
    ("How much are the fees?",
     "Our fees vary depending on grade and program. Please contact us for a detailed fee structure.")
  ]

  const Teaching: Object<string> := [
    ("What subjects do you teach?",
     "We offer classes in Mathematics, Science (Physics, Chemistry, and Biology) for high school students. For higher grades, we also provide coaching in Mathematics, Physics, Chemistry, and Biology."),
    ("What grade levels do you cover?",
     "We provide coaching for students from Grade 8 up to Grade 12, including both school syllabus support and competitive exam preparation."),
    ("How are classes conducted?",
     "We offer both offline (in-person) classes at our centre and online live classes for students who prefer studying from home. Parents can choose whichever suits them best."),
    ("What makes your academy different from others?",
     "We focus on personalized attention, labs, simulations and mainly - small batch sizes, regular progress reports, and interactive teaching methods to ensure every child understands concepts thoroughly."),
    ("What is the student-teacher ratio?",
     "We maintain small batches with a maximum of 10 to 15 students per teacher, ensuring personal attention and better interaction."),
    ("Do you provide extra doubt-clearing sessions?",
     "Yes, we conduct dedicated doubt-clearing sessions and revision classes, especially before exams, to make sure every student is confident with the syllabus.")
  ]

  const Timings: Object<string> := [
    ("What are your class timings?",
     "Classes are usually held in the evenings on weekdays and in the mornings/evenings on weekends. Exact timings depend on the grade and subjects."),
    ("Do you provide weekend batches?",
     "Yes, we have special weekend batches designed for students who have busy schedules during weekdays.")
  ]

  const Results: Object<string> := [
    ("How do you track student progress?",
     "We conduct regular tests, assignments, and parent-teacher meetings. Parents receive progress reports and feedback so they can track their child’s improvement."),
    ("Do you give feedback to parents?",
     "Yes, we strongly believe in parent involvement. Parents are regularly updated about their child’s performance through meetings and reports."),
    ("What results have your students achieved?",
     "Our students have consistently scored high marks in their school exams and board exams. Many have also successfully cleared competitive exams with our guidance.")
  ]

  const General: Object<string> := [
    ("Do you have extracurricular activities?",
     "Yes, in addition to academics, we sometimes organize workshops and activities that focus on communication skills, problem-solving, and personality development."),
    ("How can I contact support?",
     "Phone: +91-93807 38490, Email: admin@saankhya.academy")
  ]

  /** `Object.keys(qaData)`: the category buttons, in declaration order. */
  function Categories(): (cs: seq<string>)
    ensures |cs| == |Table|
    ensures forall c :: c in cs <==> Get(Table, c).Some?
  {
    Keys(Table)
  }

  /** `qaData` as a two-level map: `QaData()[c][q]` is the answer `qaData[c][q]`. */
  function QaData(): (kb: map<string, map<string, string>>)
    ensures forall c :: c in kb <==> c in Categories()
  {
    map c | c in Categories() :: AsMap(Get(Table, c).value)
  }

  /** The six category buttons, in the order the source declares them. */
  lemma CategoryOrder()
    ensures Categories() == ["Admissions", "Fees", "Teaching", "Timings", "Results", "General"]
  {
  }

  /** Category names are distinct and none is the empty string, so every one of
      them is a truthy `selectedCategory`. */
  lemma CategoriesWellFormed()
    ensures Distinct(Categories())
    ensures forall c :: c in Categories() ==> c != ""
  {
  }

  /** Within each category the questions are distinct. */
  lemma QuestionsDistinct(c: string)
    requires c in Categories()
    ensures Get(Table, c).Some? && Distinct(Keys(Get(Table, c).value))
  {
  }

  /** Every answer written in `qaData` is the one the map gives for its
      category and question. */
  lemma EntryIsReadable(i: nat, j: nat)
    requires i < |Table| && j < |Table[i].1|
    ensures Table[i].0 in QaData()
    ensures Table[i].1[j].0 in QaData()[Table[i].0]
    ensures QaData()[Table[i].0][Table[i].1[j].0] == Table[i].1[j].1
  {
    CategoriesWellFormed();
    GetDistinct(Table, i);
    assert Categories()[i] == Table[i].0;
    QuestionsDistinct(Table[i].0);
    GetDistinct(Table[i].1, j);
  }

  /** Question texts are unique only within a category: the contact question
      is listed under Admissions and under General, with the same answer. */
  lemma ContactQuestionShared()
    ensures "Admissions" in QaData() && "How can I contact support?" in QaData()["Admissions"]
    ensures "General" in QaData() && "How can I contact support?" in QaData()["General"]
    ensures QaData()["Admissions"]["How can I contact support?"] ==
            QaData()["General"]["How can I contact support?"]
  {
    assert Table[0].0 == "Admissions" && Table[0].1 == Admissions;
    assert Table[5].0 == "General" && Table[5].1 == General;
    assert Admissions[3].0 == General[1].0 == "How can I contact support?";
    assert Admissions[3].1 == General[1].1;
    EntryIsReadable(0, 3);
    EntryIsReadable(5, 1);
  }

  /** The grade-levels question is listed under Admissions and under Teaching,
      with the same answer. */
  lemma GradeQuestionShared()
    ensures "Admissions" in QaData() && "What grade levels do you cover?" in QaData()["Admissions"]
    ensures "Teaching" in QaData() && "What grade levels do you cover?" in QaData()["Teaching"]
    ensures QaData()["Admissions"]["What grade levels do you cover?"] ==
            QaData()["Teaching"]["What grade levels do you cover?"]
  {
    assert Table[0].0 == "Admissions" && Table[0].1 == Admissions;
    assert Table[2].0 == "Teaching" && Table[2].1 == Teaching;
    assert Admissions[2].0 == Teaching[1].0 == "What grade levels do you cover?";
    assert Admissions[2].1 == Teaching[1].1;
    EntryIsReadable(0, 2);
    EntryIsReadable(2, 1);
  }
}
