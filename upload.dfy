/** The upload form (pages/Upload.tsx): the file type check, the cover
    extraction with its busy flag, the submit guard, the record a submission
    stores and the "remove file" button. */
module Upload {
  import opened Types
  import Storage
  import AdminDashboard

  const PDF_MIME := "application/pdf"
  const NOT_PDF_ALERT := "الرجاء اختيار ملف PDF فقط"
  const EXTRACTION_FAILED_ALERT := "حدث خطأ أثناء معالجة ملف الـ PDF. تأكد أن الملف سليم."
  const AFTER_SUBMIT_PAGE := "home"

  /** A selected file, as far as the form looks at it. */
  datatype File = File(name: string, mimeType: string, size: nat)

  /** The record a submission stores: the form's texts and cover, every
      counter at zero and no comments. */
  function NewStory(id: string, title: string, author: string, description: string,
                    cover: string, pdfUrl: string, createdAt: int): (s: Story)
    ensures s.id == id && s.createdAt == createdAt
    ensures s.title == title && s.author == author && s.description == description
    ensures s.coverImage == cover && s.pdfUrl == pdfUrl
    ensures s.likes == 0 && s.dislikes == 0 && s.views == 0 && s.downloads == Some(0)
    ensures s.comments == [] && s.category == None
  {
    Story(id, title, description, author, cover, pdfUrl, 0, 0, 0, Some(0), createdAt, [], None)
  }

  /** A new record starts with no engagement: adding it to any list
      raises the dashboard's story count by one and leaves every total as
      it was. */
  lemma NewStoryAddsNoEngagement(stories: seq<Story>, id: string, title: string, author: string,
                                 description: string, cover: string, pdfUrl: string, createdAt: int)
    ensures var s := NewStory(id, title, author, description, cover, pdfUrl, createdAt);
      AdminDashboard.ComputeStats(stories + [s])
        == AdminDashboard.ComputeStats(stories).(totalStories := |stories| + 1)
  {
    var s := NewStory(id, title, author, description, cover, pdfUrl, createdAt);
    AdminDashboard.SumAppend(stories, [s], AdminDashboard.Views);
    AdminDashboard.SumAppend(stories, [s], AdminDashboard.Likes);
    AdminDashboard.SumAppend(stories, [s], AdminDashboard.Downloads);
  }

  class UploadForm {
    var file: Option<File>
    var coverPreview: Option<string>
    var isProcessing: bool
    var title: string
    var author: string
    var description: string

    constructor ()
      ensures file == None && coverPreview == None && !isProcessing
      ensures title == "" && author == "" && description == ""
    {
      file := None;
      coverPreview := None;
      isProcessing := false;
      title := "";
      author := "";
      description := "";
    }

    /** The submit button is enabled. */
    predicate SubmitEnabled()
      reads this
    {
      file.Some? && Truthy(coverPreview)
    }

    /** `handleSubmit` gets past its guard; the description is not checked. */
    predicate CanSave()
      reads this
    {
      SubmitEnabled() && title != "" && author != ""
    }

    /** A file chosen in the picker. `selected` is the first chosen file, if
        any; `cover` is the outcome of extracting the first page as an image,
        None when extraction throws. Returns the alert shown, if any. */
    method HandleFileChange(selected: Option<File>, cover: Option<string>) returns (alert: Option<string>)
      modifies this`file, this`coverPreview, this`isProcessing
      ensures selected.None? ==> alert == None && unchanged(this)
      ensures selected.Some? && selected.value.mimeType != PDF_MIME ==>
        alert == Some(NOT_PDF_ALERT) && unchanged(this)
      ensures selected.Some? && selected.value.mimeType == PDF_MIME ==>
        && file == selected && !isProcessing
        && (cover.Some? ==> alert == None && coverPreview == cover)
        && (cover.None? ==> alert == Some(EXTRACTION_FAILED_ALERT) && coverPreview == old(coverPreview))
    {
      alert := None;
      if selected.None? {
        return;
      }
      if selected.value.mimeType != PDF_MIME {
        alert := Some(NOT_PDF_ALERT);
        return;
      }
      file := selected;
      isProcessing := true;
      match cover {
        case Some(dataUrl) =>
          coverPreview := Some(dataUrl);
        case None =>
          alert := Some(EXTRACTION_FAILED_ALERT);
      }
      isProcessing := false;
    }

    /** Submits the form. `id` and `createdAt` are the clock readings,
        `pdfUrl` the object URL made for the file. Returns the page to go
        to, or None when the guard stops the submission. */
    method HandleSubmit(db: Storage.Database, id: string, createdAt: int, pdfUrl: string)
      returns (navigateTo: Option<string>)
      requires db.Valid()
      modifies db
      ensures db.Valid()
      ensures !old(CanSave()) ==> navigateTo == None && unchanged(db)
      ensures old(CanSave()) ==>
        && navigateTo == Some(AFTER_SUBMIT_PAGE)
        && id in db.stories
        && db.stories == old(db.stories)[id := NewStory(id, title, author, description,
                                                         coverPreview.value, pdfUrl, createdAt)]
        && db.categories == old(db.categories) && db.settings == old(db.settings)
    {
      if file.None? || !Truthy(coverPreview) || title == "" || author == "" {
        return None;
      }
      var newStory := NewStory(id, title, author, description, coverPreview.value, pdfUrl, createdAt);
      db.SaveStory(newStory);
      navigateTo := Some(AFTER_SUBMIT_PAGE);
    }

    /** Clears the chosen file and its cover. */
    method RemoveFile()
      modifies this`file, this`coverPreview
      ensures file == None && coverPreview == None
      ensures !SubmitEnabled() && !CanSave()
    {
      file := None;
      coverPreview := None;
    }
  }
}
