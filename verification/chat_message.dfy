/**
 * One message bubble, components/chat/chat-message.tsx: alignment by sender, the
 * cleartext / placeholder choice, the placeholder per lock display mode and the
 * time stamp's opacity.
 */
module ChatMessage {
  import opened Wrappers
  import opened ChatModel

  /** What stands in for a locked message's text. */
  datatype Placeholder = LockIcon | CustomText(text: string) | LockWithLabel(caption: string)

  /** The bubble's inside: the cleartext with its images, or a placeholder. */
  datatype Body = Revealed(content: string, images: seq<string>) | Hidden(placeholder: Placeholder)

  datatype Align = Start | End

  /** A rendered bubble: its side, its inside, its time stamp, the stamp's opacity and the id a click reports. */
  datatype Bubble = Bubble(align: Align, body: Body, timestamp: string, timestampOpacity: nat, clickReports: string)

  /** `message.senderId === "me"`. */
  predicate IsMe(m: Message) {
    m.senderId == "me"
  }

  /** `renderLockedContent()`: "icon" and "custom" have their own placeholder; any other mode shows lock and "Locked". */
  function RenderLockedContent(lockDisplayMode: string, customLockText: string): (p: Placeholder)
    ensures p.LockIcon? <==> lockDisplayMode == "icon"
    ensures p.CustomText? <==> lockDisplayMode == "custom"
    ensures p.CustomText? ==> p.text == customLockText
    ensures p.LockWithLabel? ==> p.caption == "Locked"
  {
    match lockDisplayMode
    case "icon" => LockIcon
    case "custom" => CustomText(customLockText)
    case _ => LockWithLabel("Locked")
  }

  /** `src={attachment || "/placeholder.svg"}` over the attachment list, in order. */
  function ImageSources(urls: seq<string>): (srcs: seq<string>)
    ensures |srcs| == |urls|
    ensures forall i :: 0 <= i < |urls| && urls[i] != "" ==> srcs[i] == urls[i]
    ensures forall i :: 0 <= i < |urls| && urls[i] == "" ==> srcs[i] == "/placeholder.svg"
  {
    if urls == [] then []
    else [if urls[0] == "" then "/placeholder.svg" else urls[0]] + ImageSources(urls[1..])
  }

  /** The bubble for message `m`. */
  function Render(m: Message, isUnlocked: bool, lockDisplayMode: string, customLockText: string): (b: Bubble)
    ensures b.align == End <==> IsMe(m)
    ensures b.body.Revealed? <==> isUnlocked
    ensures isUnlocked ==> b.body.content == m.content
    ensures isUnlocked && m.attachments.Some? ==> b.body.images == ImageSources(m.attachments.value)
    ensures isUnlocked && m.attachments.None? ==> b.body.images == []
    ensures !isUnlocked ==> b.body == Hidden(RenderLockedContent(lockDisplayMode, customLockText))
    ensures b.timestamp == m.timestamp
    ensures b.timestampOpacity == (if isUnlocked then 60 else 40)
    ensures b.clickReports == m.id
  {
    var body :=
      if isUnlocked then Revealed(m.content, if m.attachments.Some? then ImageSources(m.attachments.value) else [])
      else Hidden(RenderLockedContent(lockDisplayMode, customLockText));
    Bubble(if IsMe(m) then End else Start, body, m.timestamp, if isUnlocked then 60 else 40, m.id)
  }

  /** A locked bubble carries none of the message's own data except its time stamp and id. */
  lemma LockedIndependentOfContent(m1: Message, m2: Message, lockDisplayMode: string, customLockText: string)
    requires m1.senderId == m2.senderId && m1.timestamp == m2.timestamp && m1.id == m2.id
    ensures Render(m1, false, lockDisplayMode, customLockText) == Render(m2, false, lockDisplayMode, customLockText)
  {
  }
}
