/** The toast helpers: which kind of notification is shown, with which title
    line, description and duration. The notification library itself is left
    out; a call to it is modelled by the `Shown` value it is given. */
module Toasts {
  import opened Common

  /** The four notification calls of the library. */
  datatype ToastKind = SuccessToast | ErrorToast | WarningToast | InfoToast

  /** One call of the library: its kind, the title line, the description and
      the duration (None: the library's own default). */
  datatype Shown = Shown(kind: ToastKind, message: string, description: Option<string>, duration: Option<int>)

  /** The options of `showToast`; None stands for an omitted (`undefined`)
      option. The position is accepted and never used. */
  datatype ToastOptions = ToastOptions(
    kind: Option<string>,
    position: Option<string>,
    text1: Option<string>,
    text2: Option<string>,
    description: Option<string>,
    duration: Option<int>)

  const DEFAULT_DURATION := 4000

  /** The `switch` on the type: an omitted type is "info", and any type other
      than success, error and warning is shown as info. */
  function KindOf(kind: Option<string>): (k: ToastKind)
    ensures k == SuccessToast <==> kind == Some("success")
    ensures k == ErrorToast <==> kind == Some("error")
    ensures k == WarningToast <==> kind == Some("warning")
    ensures k == InfoToast <==> kind !in {Some("success"), Some("error"), Some("warning")}
  {
    match kind
    case None => InfoToast
    case Some(t) =>
      if t == "success" then SuccessToast
      else if t == "error" then ErrorToast
      else if t == "warning" then WarningToast
      else InfoToast
  }

  /** The title line: the first truthy of text1, text2 and description, else
      the empty text. */
  function TitleOf(o: ToastOptions): (m: string)
    ensures Truthy(o.text1) ==> m == o.text1.value
    ensures !Truthy(o.text1) && Truthy(o.text2) ==> m == o.text2.value
    ensures !Truthy(o.text1) && !Truthy(o.text2) && Truthy(o.description) ==> m == o.description.value
    ensures m == "" <==> !Truthy(o.text1) && !Truthy(o.text2) && !Truthy(o.description)
  {
    if Truthy(o.text1) then o.text1.value
    else if Truthy(o.text2) then o.text2.value
    else if Truthy(o.description) then o.description.value
    else ""
  }

  /** The description: text2 when both text lines are truthy, the given
      description otherwise. */
  function DescriptionOf(o: ToastOptions): (d: Option<string>)
    ensures Truthy(o.text1) && Truthy(o.text2) ==> d == o.text2
    ensures !(Truthy(o.text1) && Truthy(o.text2)) ==> d == o.description
  {
    if Truthy(o.text2) && Truthy(o.text1) then o.text2 else o.description
  }

  /** `showToast`, and `Toast.show`, which forwards its options to it
      unchanged. */
  function ShowToast(o: ToastOptions): (s: Shown)
    ensures s.kind == KindOf(o.kind)
    ensures s.message == TitleOf(o) && s.description == DescriptionOf(o)
    ensures s.duration == Some(if o.duration.Some? then o.duration.value else DEFAULT_DURATION)
  {
    Shown(KindOf(o.kind), TitleOf(o), DescriptionOf(o),
          Some(if o.duration.Some? then o.duration.value else DEFAULT_DURATION))
  }

  /** The alert types of the mobile-style API mapped onto toast types: danger
      is error, success and warning are themselves, anything else is info. */
  function AlertType(kind: string): (t: string)
    ensures kind == "danger" ==> t == "error"
    ensures kind == "success" || kind == "warning" ==> t == kind
    ensures kind !in {"danger", "success", "warning"} ==> t == "info"
  {
    if kind == "danger" then "error"
    else if kind == "success" then "success"
    else if kind == "warning" then "warning"
    else "info"
  }

  /** `showCustomAlertMessage`: the title is text1 and the message text2 of a
      `showToast` call whose type is the mapped alert type (an omitted type is
      "info"); the position is dropped. So a non-empty title heads the toast
      with the message below it, an empty title lets the message head it,
      and the toast lasts the default four seconds. */
  function ShowCustomAlertMessage(title: string, message: string, kind: Option<string>, position: Option<string>): (s: Shown)
    ensures kind == Some("danger") ==> s.kind == ErrorToast
    ensures kind == Some("success") ==> s.kind == SuccessToast
    ensures kind == Some("warning") ==> s.kind == WarningToast
    ensures kind !in {Some("danger"), Some("success"), Some("warning")} ==> s.kind == InfoToast
    ensures title != "" ==> s.message == title
    ensures title != "" && message != "" ==> s.description == Some(message)
    ensures title != "" && message == "" ==> s.description == None
    ensures title == "" ==> s.message == message && s.description == None
    ensures s.duration == Some(DEFAULT_DURATION)
  {
    ShowToast(ToastOptions(Some(AlertType(if kind.Some? then kind.value else "info")),
                           None, Some(title), Some(message), None, None))
  }

  /** `Toast.success`, `Toast.error`, `Toast.info` and `Toast.warning`: the
      message and description are passed through, with the library's own
      duration. */
  function Direct(kind: ToastKind, message: string, description: Option<string>): (s: Shown)
    ensures s.kind == kind && s.message == message && s.description == description
    ensures s.duration.None?
  {
    Shown(kind, message, description, None)
  }

  /** The name `showToast` gives a kind. */
  function KindName(k: ToastKind): string {
    match k
    case SuccessToast => "success"
    case ErrorToast => "error"
    case WarningToast => "warning"
    case InfoToast => "info"
  }

  /** A direct call shows what `showToast` shows for the same kind, message
      as text1 and description, except that `showToast` fixes a duration. */
  lemma DirectAgreesWithShowToast(kind: ToastKind, message: string, description: Option<string>)
    requires message != ""
    ensures ShowToast(ToastOptions(Some(KindName(kind)), None, Some(message), None, description, None))
      == Direct(kind, message, description).(duration := Some(DEFAULT_DURATION))
  {
  }
}
