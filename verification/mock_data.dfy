/** Frontend/src/assets/mockData.jsx: the fixtures the pages start from. */
module MockData {
  import opened JsValues
  import opened RulePreview

  function Person(id: string, name: string, avatar: string): Json {
    Obj(map["id" := Str(id), "name" := Str(name), "avatar" := Str(avatar)])
  }

  /** The three mock projects, with ids "1", "2" and "3". */
  const Projects: seq<Object> := [
    map["id" := Str("1"), "title" := Str("Website Redesign"),
        "description" := Str("Redesign company website with modern UI/UX"), "progress" := Num(68),
        "members" := Arr([Person("1", "Alex Johnson", "https://i.pravatar.cc/150?img=1"),
                          Person("2", "Maya Patel", "https://i.pravatar.cc/150?img=5"),
                          Person("3", "David Kim", "https://i.pravatar.cc/150?img=3")]),
        "createdAt" := Str("2023-09-15"), "dueDate" := Str("2023-12-10")],
    map["id" := Str("2"), "title" := Str("Mobile App Development"),
        "description" := Str("Build a cross-platform mobile app for client management"), "progress" := Num(42),
        "members" := Arr([Person("2", "Maya Patel", "https://i.pravatar.cc/150?img=5"),
                          Person("4", "Sarah Lee", "https://i.pravatar.cc/150?img=4")]),
        "createdAt" := Str("2023-10-01"), "dueDate" := Str("2023-12-31")],
    map["id" := Str("3"), "title" := Str("Marketing Campaign"),
        "description" := Str("Q4 marketing campaign for product launch"), "progress" := Num(24),
        "members" := Arr([Person("1", "Alex Johnson", "https://i.pravatar.cc/150?img=1"),
                          Person("3", "David Kim", "https://i.pravatar.cc/150?img=3"),
                          Person("5", "James Wilson", "https://i.pravatar.cc/150?img=12")]),
        "createdAt" := Str("2023-10-15"), "dueDate" := Str("2024-01-15")]
  ]

  function TaskFixture(id: string, title: string, description: string, priority: string,
                       assignee: Json, dueDate: string, labels: seq<string>): Object {
    map["id" := Str(id), "title" := Str(title), "description" := Str(description), "priority" := Str(priority),
        "assignee" := assignee, "dueDate" := Str(dueDate), "labels" := StrArr(labels)]
  }

  /** The mock Kanban columns, keyed by column key. */
  const Tasks: map<string, seq<Object>> := map[
    "todo" := [
      TaskFixture("t1", "Research competitors", "Analyze top 5 competitors in the market", "high",
        Person("1", "Alex Johnson", "https://i.pravatar.cc/150?img=1"), "2023-11-05", ["research", "marketing"]),
      TaskFixture("t2", "Create wireframes", "Design initial wireframes for homepage", "medium",
        Person("2", "Maya Patel", "https://i.pravatar.cc/150?img=5"), "2023-11-10", ["design", "ui/ux"])],
    "in-progress" := [
      TaskFixture("t3", "Develop API endpoints", "Create backend API endpoints for user authentication", "high",
        Person("3", "David Kim", "https://i.pravatar.cc/150?img=3"), "2023-11-15", ["development", "backend"]),
      TaskFixture("t4", "User testing plan", "Create a comprehensive user testing plan", "low",
        Person("4", "Sarah Lee", "https://i.pravatar.cc/150?img=4"), "2023-11-20", ["testing", "ux"])],
    "done" := [
      TaskFixture("t5", "Project kickoff meeting", "Initial meeting with stakeholders to define project scope", "medium",
        Person("1", "Alex Johnson", "https://i.pravatar.cc/150?img=1"), "2023-10-25", ["meeting", "planning"])]
  ]

  /** The two mock automation rules. */
  const Rules: seq<Rule> := [
    Rule("r1", "Assign high priority tasks to team lead",
      Condition("priority", Text("high")), Action("assign", Member("1", "Alex Johnson"))),
    Rule("r2", "Move completed tasks to Done column",
      Condition("status", Text("completed")), Action("move", Text("done")))
  ]

  /** Of the mock rules, exactly the second one carries the testing warning. */
  lemma MockRuleWarnings()
    ensures !ShowsTestingWarning(Rules[0]) && ShowsTestingWarning(Rules[1])
  {
  }
}
