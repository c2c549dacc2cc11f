/** The service's two fixed tables of step lists, in their source order. */
module Knowledge {
  import opened Dict

  /** Canonical task phrases, matched by similarity. */
  const Templates: Dict<seq<string>> := [
    Entry("make a pie", [
      "Gather pie ingredients (flour, butter, fruit, etc.).",
      "Prepare the crust by mixing flour and butter.",
      "Roll out the dough and place it in a pie dish.",
      "Prepare the filling (fruit, sugar, spices).",
      "Pour filling into the crust.",
      "Cover with top crust if needed and seal edges.",
      "Bake the pie until golden brown.",
      "Let the pie cool and serve."
    ]),
    Entry("study for an exam", [
      "Identify the exam topics.",
      "Gather study materials (notes, textbooks).",
      "Create a study schedule.",
      "Review notes and textbooks.",
      "Take practice tests.",
      "Focus on weak areas.",
      "Get enough rest before the exam."
    ])
  ]

  /** Broad activity categories, matched by keyword. */
  const GenericFlows: Dict<seq<string>> := [
    Entry("cook", [
      "Gather all necessary ingredients and utensils.",
      "Prepare the ingredients by washing, chopping, and measuring.",
      "Follow the cooking steps according to your recipe.",
      "Check the food is cooked thoroughly.",
      "Serve the food and clean up the workspace."
    ]),
    Entry("clean", [
      "Gather cleaning supplies.",
      "Declutter the area you want to clean.",
      "Dust and wipe surfaces.",
      "Vacuum or sweep the floors.",
      "Dispose of waste and return items to their place."
    ]),
    Entry("study", [
      "Determine what subjects or topics you need to cover.",
      "Gather study materials and resources.",
      "Create a study timetable with breaks.",
      "Review material and take notes.",
      "Test yourself to reinforce your knowledge."
    ])
  ]

}
