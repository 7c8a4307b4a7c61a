// The row for choosing a window by its class (preferences/widgets/app_row.ts),
// shared by the blacklist and custom-override pages. The picker service
// and the dialog's toasts are outside: a picked class arrives as an
// argument, a toast is returned.
module AppRow {
  import opened Wrappers

  /** The row's fixed title; the window class is shown in its subtitle. */
  const PLACEHOLDER_TITLE: string := "Expand this row, to pick a window"
  /** What the picker answers when no window was under the cursor. */
  const WINDOW_NOT_FOUND: string := "window-not-found"
  const PICK_FAILED_TOAST: string := "Can't pick window from this position"

  class Row {
    const title: string
    /** The window class the row stands for ('' for a row just added). */
    var subtitle: string
    /** The text of the class entry; the subtitle is bound to it one way, subtitle to text. */
    var entryText: string

    /** A new row: the placeholder title, the subtitle given, copied into the entry by the binding. */
    constructor (subtitle: string)
      ensures title == PLACEHOLDER_TITLE && this.subtitle == subtitle && entryText == subtitle
    {
      title := PLACEHOLDER_TITLE;
      this.subtitle := subtitle;
      entryText := subtitle;
    }

    /**
     * The guard of onTitleChange: nothing to report when the entry is empty
     * or still shows the subtitle; otherwise the (old, new) classes handed to
     * onWindowChange.
     */
    function TitleChange(): (r: Option<(string, string)>)
      reads this
      ensures r.None? <==> (entryText == "" || entryText == subtitle)
      ensures r.Some? ==> r.value.0 == subtitle && r.value.1 == entryText && r.value.0 != r.value.1
    {
      if subtitle == entryText || entryText == "" then None else Some((subtitle, entryText))
    }

    /** The rest of onTitleChange: the subtitle takes the entry text only when the callback accepted it. */
    method FinishTitleChange(accepted: bool)
      requires TitleChange().Some?
      modifies this`subtitle, this`entryText
      ensures accepted ==> subtitle == old(entryText) && entryText == old(entryText) && TitleChange().None?
      ensures !accepted ==> subtitle == old(subtitle) && entryText == old(entryText)
    {
      if accepted {
        subtitle := entryText;
        // the binding copies the subtitle back into the entry
        entryText := subtitle;
      }
    }

    /** pickWindow's onPicked handler: a picked class becomes the entry text; a miss only toasts. */
    method OnPicked(wmInstanceClass: string) returns (toast: Option<string>)
      modifies this`entryText
      ensures wmInstanceClass == WINDOW_NOT_FOUND ==> entryText == old(entryText) && toast == Some(PICK_FAILED_TOAST)
      ensures wmInstanceClass != WINDOW_NOT_FOUND ==> entryText == wmInstanceClass && toast == None
    {
      if wmInstanceClass == WINDOW_NOT_FOUND {
        return Some(PICK_FAILED_TOAST);
      }
      entryText := wmInstanceClass;
      return None;
    }
  }
}
