/** Torn responses on the wire, by what the head reader makes of their text. */
module Tears {
  import opened Wrappers
  import opened Protocol
  import HR = HeadReader

  /** The server sends a text that is no whole head, and stops so; `budget` is what the client allows a
      head. */
  function TearsAfter(text: string, budget: nat, ending: HR.Ending): Event {
    Event.Tears(HR.CountsAsUnseen(text, budget, ending))
  }

  /** Which torn responses are taken for none: of a text cut short by a clean end, those that are empty or
      end a line; of one cut by the transport, those cut between two records or behind a record header. */
  lemma TornExactlyWhen(conn: Conn, text: string, budget: nat, ending: HR.Ending)
    requires CanServe(conn, TearsAfter(text, budget, ending)) && conn.wire == []
    ensures
      SawNothing(Serve(conn, TearsAfter(text, budget, ending))) <==>
        && HR.ReadHead(text, budget, None).Eof?
        && (ending.Clean? ==> text == "" || text[|text| - 1] == '\n')
        && (ending.Cut? ==> ending.got == 0)
  {
    HR.ProofExactlyWhen(text, budget, ending);
    hide HR.ReadHead, HR.CountsAsUnseen;
  }

  lemma TwoHundred()
    ensures HR.StatusOf("HTTP/1.1 200").Some?
    ensures forall j | 0 <= j < 12 :: "HTTP/1.1 200"[j] != '\n'
  {
    var line := "HTTP/1.1 200";
    assert line[..9] == "HTTP/1.1 ";
  }

  /** The beginning of a response that is taken for no response. */
  lemma TornHead() returns (text: string)
    ensures text != "" && HR.CountsAsUnseen(text, 65536, HR.Clean) && !HR.ReadHead(text, 65536, None).Head?
  {
    TwoHundred();
    HR.StatusLineIsProofToo("HTTP/1.1 200");
    text := "HTTP/1.1 200" + "\r\n";
    hide HR.StatusOf, HR.ReadHead;
    assert HR.Failing(text, 65536, HR.Clean).Some?;
    FailingHeadless(text, 65536, HR.Clean);
  }

  lemma FailingHeadless(s: string, budget: nat, ending: HR.Ending)
    requires HR.Failing(s, budget, ending).Some?
    ensures !HR.ReadHead(s, budget, None).Head?
  {
  }

  /** Every tear of the protocol is that of some text which is no whole head. */
  lemma EveryTearHasAText(silent: bool) returns (text: string, ending: HR.Ending)
    ensures !HR.ReadHead(text, 65536, None).Head? && TearsAfter(text, 65536, ending) == Event.Tears(silent)
  {
    if silent {
      text := TornHead();
      ending := HR.Clean;
    } else {
      text, ending := "", HR.Cut(1);
      HR.ProofExactlyWhen("", 65536, ending);
    }
  }
}
