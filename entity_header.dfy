/** The header of the list pages: a title, an optional description, and an
    action button chosen from the props: a callback button, a link button,
    or none. */
module EntityComponent {
  import opened Wrappers
  import Strings

  /** `onNew` is a callback, so only its presence matters here. */
  datatype HeaderProps = HeaderProps(
    title: string,
    description: Option<string>,
    newButtonLabel: string,
    disabled: Option<bool>,
    isCreating: Option<bool>,
    hasOnNew: bool,
    newButtonHref: Option<string>)

  /** What the callback button shows: the pulsing "Creating..." text, or the
      plus icon and the label. */
  datatype ButtonContent = CreatingIndicator | PlusLabel(text: string)

  datatype ActionButton =
    | CallbackButton(disabled: bool, ariaLabel: string, content: ButtonContent)
    | LinkButton(href: string, ariaLabel: string, text: string)
    | NoButton

  datatype HeaderView = HeaderView(title: string, description: Option<string>, action: ActionButton)

  const CreatePrefix := "Create new "
  const NavigatePrefix := "Navigate to create "

  /** An optional flag is truthy only when it is set to true. */
  predicate IsTrue(flag: Option<bool>)
  {
    flag == Some(true)
  }

  /** An optional string is truthy when it is set and not empty. */
  predicate IsNonEmpty(s: Option<string>)
  {
    s.Some? && s.value != ""
  }

  /** `renderActionButton`. */
  function RenderActionButton(props: HeaderProps): (r: ActionButton)
    ensures r.CallbackButton? <==> props.hasOnNew && !IsNonEmpty(props.newButtonHref)
    ensures r.LinkButton? <==> IsNonEmpty(props.newButtonHref) && !props.hasOnNew
    ensures r.NoButton? <==> props.hasOnNew == IsNonEmpty(props.newButtonHref)
    ensures r.CallbackButton? ==>
      && (r.disabled <==> IsTrue(props.isCreating) || IsTrue(props.disabled))
      && (r.content.CreatingIndicator? <==> IsTrue(props.isCreating))
      && (r.content.PlusLabel? ==> r.content.text == props.newButtonLabel)
      && r.ariaLabel == CreatePrefix + Strings.ToLower(props.newButtonLabel)
    ensures r.LinkButton? ==>
      && r.href == props.newButtonHref.value
      && r.text == props.newButtonLabel
      && r.ariaLabel == NavigatePrefix + Strings.ToLower(props.newButtonLabel)
  {
    if props.hasOnNew && !IsNonEmpty(props.newButtonHref) then
      CallbackButton(
        IsTrue(props.isCreating) || IsTrue(props.disabled),
        CreatePrefix + Strings.ToLower(props.newButtonLabel),
        if IsTrue(props.isCreating) then CreatingIndicator else PlusLabel(props.newButtonLabel))
    else if IsNonEmpty(props.newButtonHref) && !props.hasOnNew then
      LinkButton(props.newButtonHref.value, NavigatePrefix + Strings.ToLower(props.newButtonLabel), props.newButtonLabel)
    else
      NoButton
  }

  /** `EntityHeader`: the description paragraph is rendered only for a
      non-empty description. */
  function RenderHeader(props: HeaderProps): (v: HeaderView)
    ensures v.title == props.title
    ensures v.description.Some? <==> IsNonEmpty(props.description)
    ensures v.description.Some? ==> v.description == props.description
    ensures v.action == RenderActionButton(props)
  {
    HeaderView(props.title, if IsNonEmpty(props.description) then props.description else None, RenderActionButton(props))
  }

  /** After its fixed prefix, an aria-label holds no upper-case ASCII letter. */
  lemma AriaLabelIsLowerCase(props: HeaderProps)
    ensures RenderActionButton(props).CallbackButton? ==>
      forall i :: |CreatePrefix| <= i < |RenderActionButton(props).ariaLabel| ==>
        !Strings.IsUpperAscii(RenderActionButton(props).ariaLabel[i])
    ensures RenderActionButton(props).LinkButton? ==>
      forall i :: |NavigatePrefix| <= i < |RenderActionButton(props).ariaLabel| ==>
        !Strings.IsUpperAscii(RenderActionButton(props).ariaLabel[i])
  {
  }

  /** The workflows page's header: a callback button labelled
      "New Workflows", disabled while a workflow is being created. */
  lemma {:induction false} WorkflowsHeader(isCreating: bool, disable: Option<bool>)
    ensures
      var props := HeaderProps("Workflows", Some("Create and manage your workflows"), "New Workflows",
                               disable, Some(isCreating), true, None);
      && RenderHeader(props).description == Some("Create and manage your workflows")
      && RenderActionButton(props) == CallbackButton(
           isCreating || disable == Some(true),
           "Create new new workflows",
           if isCreating then CreatingIndicator else PlusLabel("New Workflows"))
  {
  }
}
