/**
 * The message composer of components/chat/chat-input.tsx: the draft text, the emoji
 * panel flag, and two parallel lists (picked image files and their preview URLs) that
 * every handler keeps aligned.
 */
module ChatInput {
  import opened Wrappers
  import opened Text
  import opened Seqs
  import opened Files

  /** What `onSendMessage` receives: the untrimmed draft and the files, or none. */
  datatype Submission = Submission(message: string, attachments: Option<seq<File>>)

  /** The guard shared by submit and the send button: some non-blank text or some attachment. */
  predicate HasContent(message: string, attachments: seq<File>) {
    Trim(message) != "" || |attachments| > 0
  }

  /** `disabled || (!message.trim() && attachments.length === 0)`. */
  predicate SendDisabled(disabled: bool, message: string, attachments: seq<File>) {
    disabled || !HasContent(message, attachments)
  }

  /** The button is enabled exactly when not disabled and the draft has a non-whitespace character or a file. */
  lemma SendEnabledIff(disabled: bool, message: string, attachments: seq<File>)
    ensures !SendDisabled(disabled, message, attachments) <==>
      !disabled && (!IsBlank(message) || |attachments| > 0)
  {
    TrimEmptyIffBlank(message);
  }

  class Composer {
    var message: string
    var showEmoji: bool
    var attachments: seq<File>
    var previewUrls: seq<string>
    /** The preview URLs handed to `URL.revokeObjectURL`, in order. */
    var revoked: seq<string>

    /** One preview per attachment, and only image files are attached. */
    ghost predicate Valid()
      reads this
    {
      |attachments| == |previewUrls| && forall i :: 0 <= i < |attachments| ==> IsImage(attachments[i])
    }

    constructor ()
      ensures Valid()
      ensures message == "" && !showEmoji && attachments == [] && previewUrls == [] && revoked == []
    {
      message, showEmoji, attachments, previewUrls, revoked := "", false, [], [], [];
    }

    /**
     * `handleSubmit`: refused when there is nothing to send; otherwise hands over the
     * draft as typed and the files (none when the list is empty), then clears everything.
     */
    method Submit() returns (sent: Option<Submission>)
      requires Valid()
      modifies this
      ensures Valid()
      ensures !HasContent(old(message), old(attachments)) ==> sent.None? && unchanged(this)
      ensures HasContent(old(message), old(attachments)) ==>
        && sent == Some(Submission(old(message), if |old(attachments)| > 0 then Some(old(attachments)) else None))
        && message == "" && attachments == [] && previewUrls == [] && !showEmoji && revoked == old(revoked)
    {
      if !HasContent(message, attachments) {
        return None;
      }
      sent := Some(Submission(message, if |attachments| > 0 then Some(attachments) else None));
      message, attachments, previewUrls, showEmoji := "", [], [], false;
    }

    /**
     * `handleFileSelect`: an empty pick changes nothing; otherwise the image files are
     * appended, and one freshly minted preview per kept file, in the same order.
     */
    method FileSelect(files: seq<File>, mint: File -> string)
      requires Valid()
      modifies this
      ensures Valid()
      ensures files == [] ==> unchanged(this)
      ensures files != [] ==>
        && attachments == old(attachments) + Filter(files, IsImage)
        && previewUrls == old(previewUrls) + ObjectUrls(Filter(files, IsImage), mint)
        && message == old(message) && showEmoji == old(showEmoji) && revoked == old(revoked)
    {
      if files == [] {
        return;
      }
      var images := Filter(files, IsImage);
      FilterAllSatisfy(files, IsImage);
      attachments := attachments + images;
      previewUrls := previewUrls + ObjectUrls(images, mint);
    }

    /** `removeAttachment(i)`: revokes preview `i` and drops index `i` from both lists. */
    method RemoveAttachment(i: nat)
      requires Valid()
      modifies this
      ensures Valid()
      ensures attachments == RemoveAt(old(attachments), i) && previewUrls == RemoveAt(old(previewUrls), i)
      ensures revoked == old(revoked) + (if i < |old(previewUrls)| then [old(previewUrls)[i]] else [])
      ensures message == old(message) && showEmoji == old(showEmoji)
    {
      if i < |previewUrls| {
        revoked := revoked + [previewUrls[i]];
      }
      attachments := RemoveAt(attachments, i);
      previewUrls := RemoveAt(previewUrls, i);
    }

    /** `handleEmojiClick`: the emoji goes at the end of the draft. */
    method EmojiClick(emoji: string)
      requires Valid()
      modifies this
      ensures Valid()
      ensures message == old(message) + emoji
      ensures showEmoji == old(showEmoji) && attachments == old(attachments) && previewUrls == old(previewUrls)
      ensures revoked == old(revoked)
    {
      message := message + emoji;
    }

    /** The text field's `onChange`. */
    method SetMessage(text: string)
      requires Valid()
      modifies this
      ensures Valid()
      ensures message == text && showEmoji == old(showEmoji)
      ensures attachments == old(attachments) && previewUrls == old(previewUrls) && revoked == old(revoked)
    {
      message := text;
    }

    /** The emoji button. */
    method ToggleEmoji()
      requires Valid()
      modifies this
      ensures Valid()
      ensures showEmoji == !old(showEmoji) && message == old(message)
      ensures attachments == old(attachments) && previewUrls == old(previewUrls) && revoked == old(revoked)
    {
      showEmoji := !showEmoji;
    }
  }
}
