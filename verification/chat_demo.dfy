/**
 * The landing-page demo conversation of components/chat/chat-demo.tsx: five fixed
 * messages and one local `unlockedId`, overwritten by a click on a message.
 */
module ChatDemo {
  import opened Wrappers

  datatype Sender = UserSide | OtherSide

  datatype DemoMessage = DemoMessage(id: string, content: string, sender: Sender, timestamp: string)

  /** The five scripted messages, ids "1" to "5". */
  const DemoMessages: seq<DemoMessage> := [
    DemoMessage("1", "The package has been secured. Did you retrieve the microfilm?", OtherSide, "10:30 AM"),
    DemoMessage("2", "Affirmative. It's concealed in the dead drop at coordinates 47\U{B0}36'N 122\U{B0}20'W.", UserSide, "10:31 AM"),
    DemoMessage("3", "Good. The asset will retrieve at 2300 hours. Operation Nightshade is compromised.", OtherSide, "10:32 AM"),
    DemoMessage("4", "Understood. I've activated Protocol Phoenix. My cover remains intact.", UserSide, "10:33 AM"),
    DemoMessage("5", "Watch for double agent codename 'Raven'. Extraction scheduled for dawn.", OtherSide, "10:34 AM")
  ]

  /** A demo bubble: its side, the cleartext when revealed, the stamp's opacity and the id a click reports. */
  datatype DemoBubble = DemoBubble(alignRight: bool, revealed: Option<string>, timestamp: string,
                                   timestampOpacity: nat, clickReports: string)

  /** `unlockedId === message.id`. */
  predicate Reveals(unlockedId: Option<string>, m: DemoMessage) {
    unlockedId == Some(m.id)
  }

  /** One bubble: right-aligned iff sent by "user", content iff revealed, otherwise the lock and "Locked". */
  function RenderDemo(unlockedId: Option<string>, m: DemoMessage): (b: DemoBubble)
    ensures b.alignRight <==> m.sender == UserSide
    ensures b.revealed.Some? <==> Reveals(unlockedId, m)
    ensures b.revealed.Some? ==> b.revealed.value == m.content
    ensures b.timestamp == m.timestamp && b.timestampOpacity == (if Reveals(unlockedId, m) then 60 else 40)
    ensures b.clickReports == m.id
  {
    var shown := Reveals(unlockedId, m);
    DemoBubble(m.sender == UserSide, if shown then Some(m.content) else None, m.timestamp,
               if shown then 60 else 40, m.id)
  }

  /** The demo ids are pairwise distinct. */
  lemma DemoIdsDistinct()
    ensures forall i, j :: 0 <= i < j < |DemoMessages| ==> DemoMessages[i].id != DemoMessages[j].id
  {
  }

  /** While `unlockedId` is one of the demo ids, exactly one demo message is revealed. */
  lemma ExactlyOneRevealed(unlockedId: Option<string>, k: nat)
    requires k < |DemoMessages| && unlockedId == Some(DemoMessages[k].id)
    ensures Reveals(unlockedId, DemoMessages[k])
    ensures forall i :: 0 <= i < |DemoMessages| && Reveals(unlockedId, DemoMessages[i]) ==> i == k
  {
    DemoIdsDistinct();
  }

  /** The demo's state: the one `unlockedId`. */
  class ChatDemo {
    var unlockedId: Option<string>

    /** `unlockedId` names one of the demo messages. */
    ghost predicate Valid()
      reads this
    {
      exists k :: 0 <= k < |DemoMessages| && unlockedId == Some(DemoMessages[k].id)
    }

    /** The first render reveals the last message only. */
    constructor ()
      ensures Valid()
      ensures unlockedId == Some("5")
      ensures forall i :: 0 <= i < |DemoMessages| ==> (Reveals(unlockedId, DemoMessages[i]) <==> i == 4)
    {
      unlockedId := Some("5");
      ExactlyOneRevealed(Some("5"), 4);
    }

    /** `handleMessageClick` on bubble `k`: that message, and only it, is revealed. */
    method MessageClick(k: nat)
      requires Valid() && k < |DemoMessages|
      modifies this
      ensures Valid()
      ensures unlockedId == Some(DemoMessages[k].id)
      ensures forall i :: 0 <= i < |DemoMessages| ==> (Reveals(unlockedId, DemoMessages[i]) <==> i == k)
    {
      unlockedId := Some(DemoMessages[k].id);
      ExactlyOneRevealed(unlockedId, k);
    }
  }
}
