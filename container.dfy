/** The container widget: a group of fields whose content can be expanded
    and collapsed by clicking its header, when the content is collapsible. */
module Container {
  import opened FormModel

  /** The content model of a container. Whether it is collapsible, and
      whether it starts expanded, are decided by code outside this model and
      given at construction. */
  class ContainerContent {
    const field: FormField
    const collapsible: bool
    var isExpanded: bool

    constructor (field: FormField, collapsible: bool, isExpanded: bool)
      ensures this.field == field && this.collapsible == collapsible
      ensures this.isExpanded == isExpanded
    {
      this.field := field;
      this.collapsible := collapsible;
      this.isExpanded := isExpanded;
    }

    predicate IsCollapsible() {
      collapsible
    }
  }

  /** Whether the content is expanded after a click on its header. */
  function AfterClick(collapsible: bool, expanded: bool): (r: bool)
    ensures collapsible ==> r == !expanded
    ensures !collapsible ==> r == expanded
  {
    if collapsible then !expanded else expanded
  }

  /** Two clicks leave the content as it was. */
  lemma TwoClicksRestore(collapsible: bool, expanded: bool)
    ensures AfterClick(collapsible, AfterClick(collapsible, expanded)) == expanded
  {
  }

  class ContainerWidget {
    const field: FormField?
    var content: ContainerContent?

    constructor (field: FormField?)
      ensures this.field == field && content == null
    {
      this.field := field;
      content := null;
    }

    /** `onExpanderClicked`: flip the expanded state of collapsible content;
        with no content, or content that cannot collapse, nothing changes. */
    method OnExpanderClicked()
      modifies content
      ensures content == old(content)
      ensures content != null ==>
        content.isExpanded == AfterClick(content.IsCollapsible(), old(content.isExpanded))
    {
      if content != null && content.IsCollapsible() {
        content.isExpanded := !content.isExpanded;
      }
    }

    /** `ngOnInit`: a bound field gets fresh content; without a field the
        content stays unset. */
    method NgOnInit(collapsible: bool, isExpanded: bool)
      modifies this
      ensures field != null ==>
        && content != null && fresh(content) && content.field == field
        && content.collapsible == collapsible && content.isExpanded == isExpanded
      ensures field == null ==> content == old(content)
    {
      if field != null {
        content := new ContainerContent(field, collapsible, isExpanded);
      }
    }

    /** Two clicks on the header restore the expanded state. */
    method ClickTwice()
      modifies content
      ensures content == old(content)
      ensures content != null ==> content.isExpanded == old(content.isExpanded)
    {
      OnExpanderClicked();
      OnExpanderClicked();
      if content != null {
        TwoClicksRestore(content.IsCollapsible(), old(content.isExpanded));
      }
    }
  }
}
