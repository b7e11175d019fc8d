/** The private notes screen: a form with a title and a text, saved as a
    note at the head of the list when the text is not blank. */
module PrivateNotes {
  import opened JsString

  /** A saved note; `id` stands for `Date.now()` and `date` for the
      formatted `new Date()` at save time. */
  datatype Note = Note(id: int, title: string, content: string, date: string)

  const UntitledTitle: string := "Untitled Thought"

  /** `noteTitle.trim() || "Untitled Thought"`: the trimmed title, or the
      default when nothing is left of it; never empty and never starting or
      ending with whitespace. */
  function NoteTitle(title: string): (r: string)
    ensures IsBlank(title) ==> r == UntitledTitle
    ensures !IsBlank(title) ==> r == Trim(title)
    ensures r != "" && !IsWhitespace(r[0]) && !IsWhitespace(r[|r| - 1])
  {
    var t := Trim(title);
    TrimEmptyIffBlank(title);
    if t != "" then
      TrimShape(title);
      t
    else
      assert UntitledTitle[0] == 'U' && UntitledTitle[|UntitledTitle| - 1] == 't';
      UntitledTitle
  }

  class PrivateNotesScreen {
    var notes: seq<Note>
    var newNote: string
    var noteTitle: string
    var showNewNote: bool

    constructor ()
      ensures notes == [] && newNote == "" && noteTitle == "" && !showNewNote
    {
      notes := [];
      newNote := "";
      noteTitle := "";
      showNewNote := false;
    }

    /** "Share Your Heart": shows the form. */
    method OpenForm()
      modifies this`showNewNote
      ensures showNewNote
    {
      showNewNote := true;
    }

    /** Typing in the title field. */
    method SetTitle(value: string)
      modifies this`noteTitle
      ensures noteTitle == value
    {
      noteTitle := value;
    }

    /** Typing in the text field. */
    method SetContent(value: string)
      modifies this`newNote
      ensures newNote == value
    {
      newNote := value;
    }

    /** The save button is enabled when the text is not blank. */
    function SaveEnabled(): (enabled: bool)
      reads this
      ensures enabled <==> !IsBlank(newNote)
    {
      TrimEmptyIffBlank(newNote);
      HasText(newNote)
    }

    /** `saveNote`: a blank text changes nothing; otherwise the note, with
        its text exactly as typed, goes in front of the older notes, which
        keep their order, and the form is emptied and hidden. */
    method SaveNote(id: int, date: string) returns (saved: bool)
      modifies this
      ensures saved <==> !IsBlank(old(newNote))
      ensures saved ==>
        && notes == [Note(id, NoteTitle(old(noteTitle)), old(newNote), date)] + old(notes)
        && newNote == "" && noteTitle == "" && !showNewNote
      ensures !saved ==>
        notes == old(notes) && newNote == old(newNote) && noteTitle == old(noteTitle) && showNewNote == old(showNewNote)
    {
      TrimEmptyIffBlank(newNote);
      saved := SaveEnabled();
      if saved {
        var note := Note(id, NoteTitle(noteTitle), newNote, date);
        notes := [note] + notes;
        newNote := "";
        noteTitle := "";
        showNewNote := false;
      }
    }

    /** "Maybe Later": hides the form and keeps what was typed. */
    method MaybeLater()
      modifies this`showNewNote
      ensures !showNewNote
    {
      showNewNote := false;
    }
  }
}
