/**
 * The records of the Planning Center workflows API as the client sees them
 * (lib/types.ts). Optional JSON members are `Option`s; a relationship
 * `relationships?.x?.data?.id` is collapsed to the optional id it leads to.
 * Timestamps and the other attributes the modelled code never reads are left out.
 */
module PcoTypes {
  import opened Wrappers

  datatype Person = Person(typ: string, id: string, firstName: string, lastName: string)

  datatype Workflow = Workflow(id: string, name: string, categoryId: Option<string>)

  datatype WorkflowCategory = WorkflowCategory(id: string, name: string)

  datatype Step = Step(typ: string, id: string, sequence: int, name: string)

  datatype CardAttributes = CardAttributes(stage: string, overdue: bool, removedAt: Option<string>)

  /** The ids the card's JSON:API relationships point at. */
  datatype Relationships = Relationships(
    personId: Option<string>,
    assigneeId: Option<string>,
    currentStepRef: Option<string>)

  /**
   * A workflow card. `person`, `assignee`, `currentStep` and `currentStepId`
   * are the members the server routes attach to the upstream record.
   */
  datatype Card = Card(
    id: string,
    attributes: CardAttributes,
    relationships: Relationships,
    person: Option<Person>,
    assignee: Option<Person>,
    currentStep: Option<Step>,
    currentStepId: Option<string>)
}
