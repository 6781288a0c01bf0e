/** The dashboard's "Create New Project" dialog: its form rules, its defaults and what a
    submit does to the dialog and to the store. */
module CreateProjectDialog {
  import opened Types
  import opened Firestore
  import ProjectCard

  /** The form's fields; the description may be absent. */
  datatype ProjectFormValues = ProjectFormValues(name: string, description: Option<string>, color: string)

  /** The character class `[0-9a-fA-F]`. */
  predicate IsHexDigit(c: char)
  {
    '0' <= c <= '9' || 'a' <= c <= 'f' || 'A' <= c <= 'F'
  }

  /** `[0-9a-fA-F]{n}$`: exactly `n` hex digits and nothing after them, matched one character
      at a time. */
  predicate HexRun(s: string, n: nat)
  {
    if n == 0 then s == ""
    else s != "" && IsHexDigit(s[0]) && HexRun(s[1..], n - 1)
  }

  /** `/^#[0-9a-fA-F]{6}$/.test(s)`. */
  predicate IsHexColor(s: string)
  {
    s != "" && s[0] == '#' && HexRun(s[1..], 6)
  }

  /** A run of `n` hex digits is a string of length `n` made of hex digits only. */
  lemma {:induction false} HexRunClosedForm(s: string, n: nat)
    ensures HexRun(s, n) <==> |s| == n && forall i :: 0 <= i < |s| ==> IsHexDigit(s[i])
    decreases n
  {
    if n != 0 && s != "" {
      HexRunClosedForm(s[1..], n - 1);
      assert forall i :: 1 <= i < |s| ==> s[i] == s[1..][i - 1];
    }
  }

  /** Seven characters: a `#` and six hex digits. */
  predicate HexColorShape(s: string)
  {
    |s| == 7 && s[0] == '#' && forall i :: 1 <= i < 7 ==> IsHexDigit(s[i])
  }

  /** The pattern accepts exactly the strings of that shape. */
  lemma HexColorClosedForm(s: string)
    ensures IsHexColor(s) <==> HexColorShape(s)
  {
    if s != "" {
      HexRunClosedForm(s[1..], 6);
      assert forall i :: 1 <= i < |s| ==> s[i] == s[1..][i - 1];
    }
  }

  /** The form schema: a name of 3 to 50 characters, a description of at most 200, and a hex
      colour. */
  predicate ValidProjectForm(v: ProjectFormValues)
  {
    && 3 <= |v.name| <= 50
    && (v.description.Some? ==> |v.description.value| <= 200)
    && IsHexColor(v.color)
  }

  /** The values the form starts from and returns to after a reset. */
  function DefaultProjectForm(): ProjectFormValues
  {
    ProjectFormValues("", Some(""), ProjectCard.ProjectColors[0].value)
  }

  /** Every palette colour is a `#` and six hex digits. */
  lemma PaletteColorsAreShaped()
    ensures forall i :: 0 <= i < |ProjectCard.ProjectColors| ==> HexColorShape(ProjectCard.ProjectColors[i].value)
  {
  }

  /** A string of that shape passes the colour rule. */
  lemma ShapedColorIsValid(s: string)
    requires HexColorShape(s)
    ensures IsHexColor(s)
  {
    HexColorClosedForm(s);
  }

  /** Every palette colour passes the colour rule. */
  lemma PaletteColorsAreValid()
    ensures forall i :: 0 <= i < |ProjectCard.ProjectColors| ==> IsHexColor(ProjectCard.ProjectColors[i].value)
  {
    PaletteColorsAreShaped();
    forall i | 0 <= i < |ProjectCard.ProjectColors| ensures IsHexColor(ProjectCard.ProjectColors[i].value) {
      ShapedColorIsValid(ProjectCard.ProjectColors[i].value);
    }
  }

  /** The default form needs a name before it can be submitted, and a name is all it needs. */
  lemma DefaultFormNeedsOnlyAName(name: string)
    ensures !ValidProjectForm(DefaultProjectForm())
    ensures ValidProjectForm(DefaultProjectForm().(name := name)) <==> 3 <= |name| <= 50
  {
    PaletteColorsAreValid();
  }

  /** `createProject` receives the form's values as they are. */
  function ProjectData(v: ProjectFormValues): (d: NewProjectData)
    ensures d.name == v.name && d.description == v.description && d.color == v.color
  {
    NewProjectData(v.name, v.description, v.color)
  }

  class Dialog {
    var isOpen: bool
    var isLoading: bool
    var form: ProjectFormValues

    constructor()
      ensures !isOpen && !isLoading && form == DefaultProjectForm()
    {
      isOpen := false;
      isLoading := false;
      form := DefaultProjectForm();
    }

    /** `onOpenChange`: opening or closing keeps whatever was typed. */
    method OnOpenChange(open: bool)
      modifies this
      ensures isOpen == open && form == old(form) && isLoading == old(isLoading)
    {
      isOpen := open;
    }

    /** The user types into the fields. */
    method Edit(values: ProjectFormValues)
      modifies this
      ensures form == values && isOpen == old(isOpen) && isLoading == old(isLoading)
    {
      form := values;
    }

    /** `form.handleSubmit(onSubmit)`: an invalid form or a signed-out user changes nothing;
        otherwise the project is created under the user, owned by them and with them as its
        only member, and the dialog resets and closes. */
    method Submit(user: Option<string>, db: Database, newId: string, now: Timestamp) returns (created: bool)
      requires db.Valid() && newId !in db.projects
      modifies this, db
      ensures db.Valid()
      ensures created <==> ValidProjectForm(old(form)) && user.Some?
      ensures !created ==> (db.projects == old(db.projects) && db.tasks == old(db.tasks)
        && isOpen == old(isOpen) && isLoading == old(isLoading) && form == old(form))
      ensures created ==> (db.projects == old(db.projects)[newId := NewProject(newId, ProjectData(old(form)), user.value, now)]
        && db.tasks == old(db.tasks)
        && !isOpen && !isLoading && form == DefaultProjectForm())
    {
      if !ValidProjectForm(form) {
        return false;
      }
      if user.None? {
        // the "must be logged in" message
        return false;
      }
      isLoading := true;
      db.CreateProject(ProjectData(form), user.value, newId, now);
      form := DefaultProjectForm();
      isOpen := false;
      isLoading := false;
      created := true;
    }
  }
}
