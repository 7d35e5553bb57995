/**
 * The WhatsApp widget builder form: its field state, the image picker's
 * type and size checks, the submit-time phone check, and the outcome of the
 * save request.
 */
module WhatsAppForm {
  import opened Wrappers
  import opened JsText
  import WhatsAppConfig
  import UploadFilter

  /** The picked file as the browser reports it. */
  datatype PickedFile = PickedFile(mimeType: string, size: nat)

  /** The save request's result: the response fields, or the error the server sent (if any). */
  datatype SaveReply = SaveOk(embedCode: string, widgetId: string, greetingImageUrl: Option<string>) | SaveFailed(serverError: Option<string>)

  const DefaultGreeting := "Greetings,\n\nIf you would like us to contact you, please provide your name, phone number, and email in a brief message. Thank you.\n\nRegards,\nOur Team"

  /** The form's starting values, restored by `resetForm`. */
  function InitialFormData(): (m: map<string, string>)
    ensures m.Keys == {"phoneNumber", "buttonColor", "position", "welcomeMessage", "agentName", "replyTime", "greetingMessage"}
    ensures m["phoneNumber"] == "" && m["buttonColor"] == WhatsAppConfig.DefaultButtonColor && m["position"] == WhatsAppConfig.DefaultPosition
  {
    map["phoneNumber" := "", "buttonColor" := "#25D366", "position" := "bottom-right",
        "welcomeMessage" := "Hi! How can we help you?", "agentName" := "Support Team", "replyTime" := "Online",
        "greetingMessage" := DefaultGreeting]
  }

  const WrongTypeError := "Only JPEG/PNG images are allowed"
  const TooLargeError := "Image size must be less than 5MB"
  const InvalidPhoneError := "Please enter a valid phone number (e.g., +919884098840)"

  /** The image checks in order: the type first, then the size; None accepts. */
  function ImageCheck(file: PickedFile): (r: Option<string>)
    ensures r.None? <==> UploadFilter.ImageTypePattern(file.mimeType) && file.size <= UploadFilter.MaxUploadBytes
    ensures !UploadFilter.ImageTypePattern(file.mimeType) ==> r == Some(WrongTypeError)
    ensures UploadFilter.ImageTypePattern(file.mimeType) && file.size > UploadFilter.MaxUploadBytes ==> r == Some(TooLargeError)
  {
    if !UploadFilter.ImageTypePattern(file.mimeType) then Some(WrongTypeError)
    else if file.size > 5 * 1024 * 1024 then Some(TooLargeError)
    else None
  }

  /** A file of exactly 5 MiB passes the size check; one byte more does not. */
  lemma SizeBoundary(mimeType: string)
    requires UploadFilter.ImageTypePattern(mimeType)
    ensures ImageCheck(PickedFile(mimeType, 5 * 1024 * 1024)).None?
    ensures ImageCheck(PickedFile(mimeType, 5 * 1024 * 1024 + 1)) == Some(TooLargeError)
  {
  }

  /** The form tests the type with the server's pattern, so what it accepts passes the server's MIME test; the server also tests the extension. */
  lemma FormTypeMatchesServer(file: PickedFile, extension: string)
    requires ImageCheck(file).None?
    ensures UploadFilter.FileFilter(extension, file.mimeType).None? <==> UploadFilter.ImageTypePattern(ToLower(extension))
  {
  }

  /** A file the form lets through is stored by the server whenever its extension matches too: the two size limits agree. */
  lemma FormAcceptedIsStored(file: PickedFile, extension: string)
    requires ImageCheck(file).None? && UploadFilter.ImageTypePattern(ToLower(extension))
    ensures UploadFilter.Upload(extension, file.mimeType, file.size) == UploadFilter.Stored
  {
  }

  class WidgetForm {
    var formData: map<string, string>
    var greetingImage: Option<PickedFile>
    var greetingImageUrl: string
    var imagePreview: string
    var widgetCode: string
    var widgetId: string
    var error: string
    var isPreviewVisible: bool
    var activeTab: string

    /** The state `resetForm` restores, which is also the initial state. */
    predicate Pristine()
      reads this
    {
      && formData == InitialFormData() && greetingImage == None && greetingImageUrl == "" && imagePreview == ""
      && widgetCode == "" && widgetId == "" && error == "" && !isPreviewVisible && activeTab == "settings"
    }

    constructor ()
      ensures Pristine()
    {
      formData := InitialFormData();
      greetingImage := None;
      greetingImageUrl := "";
      imagePreview := "";
      widgetCode := "";
      widgetId := "";
      error := "";
      isPreviewVisible := false;
      activeTab := "settings";
    }

    /** `handleTextChange`: only the named field changes, and the error is cleared. */
    method HandleTextChange(name: string, value: string)
      modifies this
      ensures formData == old(formData)[name := value] && error == ""
      ensures forall k :: k in old(formData) && k != name ==> k in formData && formData[k] == old(formData)[k]
      ensures greetingImage == old(greetingImage) && greetingImageUrl == old(greetingImageUrl) && imagePreview == old(imagePreview)
      ensures widgetCode == old(widgetCode) && widgetId == old(widgetId)
      ensures isPreviewVisible == old(isPreviewVisible) && activeTab == old(activeTab)
    {
      formData := formData[name := value];
      error := "";
    }

    /**
     * `handleImageChange`: no file changes nothing; a rejected file sets the
     * error and keeps the previous image; an accepted file is kept and its
     * data URL (as the reader delivers it) becomes the preview.
     */
    method HandleImageChange(file: Option<PickedFile>, dataUrl: string)
      modifies this
      ensures file.None? ==> greetingImage == old(greetingImage) && error == old(error) && imagePreview == old(imagePreview)
      ensures file.Some? && ImageCheck(file.value).Some? ==>
        error == ImageCheck(file.value).value && greetingImage == old(greetingImage) && imagePreview == old(imagePreview)
      ensures file.Some? && ImageCheck(file.value).None? ==>
        greetingImage == file && error == "" && imagePreview == dataUrl
      ensures formData == old(formData) && greetingImageUrl == old(greetingImageUrl)
      ensures widgetCode == old(widgetCode) && widgetId == old(widgetId)
      ensures isPreviewVisible == old(isPreviewVisible) && activeTab == old(activeTab)
    {
      if file.Some? {
        var f := file.value;
        var isValidType := UploadFilter.ImageTypePattern(f.mimeType);
        var isValidSize := f.size <= 5 * 1024 * 1024;
        if !isValidType {
          error := WrongTypeError;
          return;
        }
        if !isValidSize {
          error := TooLargeError;
          return;
        }
        greetingImage := file;
        error := "";
        imagePreview := dataUrl;
      }
    }

    /**
     * `handleSubmit`: a phone number failing `^\+\d{10,15}$` sets the error
     * and posts nothing; otherwise the form is posted and the reply applied.
     */
    method HandleSubmit(reply: SaveReply) returns (posted: bool)
      modifies this
      ensures var phone := Interp(if "phoneNumber" in formData then Some(formData["phoneNumber"]) else None);
        posted <==> WhatsAppConfig.PhonePattern(phone)
      ensures !posted ==> error == InvalidPhoneError && widgetCode == old(widgetCode) && widgetId == old(widgetId)
                          && isPreviewVisible == old(isPreviewVisible) && activeTab == old(activeTab)
                          && greetingImageUrl == old(greetingImageUrl)
      ensures posted && reply.SaveOk? ==>
        widgetCode == reply.embedCode && widgetId == reply.widgetId && greetingImageUrl == Or(reply.greetingImageUrl, "")
        && error == "" && isPreviewVisible && activeTab == "code"
      ensures posted && reply.SaveFailed? ==>
        error == Or(reply.serverError, "Something went wrong")
        && widgetCode == "" && widgetId == "" && greetingImageUrl == "" && !isPreviewVisible && activeTab == old(activeTab)
      ensures formData == old(formData) && greetingImage == old(greetingImage) && imagePreview == old(imagePreview)
    {
      var phone := Interp(if "phoneNumber" in formData then Some(formData["phoneNumber"]) else None);
      if !WhatsAppConfig.PhoneRegexTest(phone) {
        error := InvalidPhoneError;
        return false;
      }
      posted := true;
      match reply
      case SaveOk(embedCode, id, url) =>
        widgetCode := embedCode;
        widgetId := id;
        greetingImageUrl := Or(url, "");
        error := "";
        isPreviewVisible := true;
        activeTab := "code";
      case SaveFailed(serverError) =>
        error := Or(serverError, "Something went wrong");
        widgetCode := "";
        widgetId := "";
        greetingImageUrl := "";
        isPreviewVisible := false;
    }

    /** `resetForm`: back to the initial values, with every widget result cleared. */
    method ResetForm()
      modifies this
      ensures Pristine()
    {
      formData := InitialFormData();
      greetingImage := None;
      greetingImageUrl := "";
      imagePreview := "";
      widgetCode := "";
      widgetId := "";
      error := "";
      isPreviewVisible := false;
      activeTab := "settings";
    }
  }

  /** The starting phone number is empty, so submitting the untouched form never posts. */
  lemma InitialFormDoesNotPost()
    ensures !WhatsAppConfig.PhonePattern(InitialFormData()["phoneNumber"])
  {
  }
}
