/**
 * The vCard 3.0 text both generators write: each contact is a block of six
 * lines (`BEGIN:VCARD`, `VERSION:3.0`, `FN:`, `N:`, `TEL;TYPE=CELL:`,
 * `END:VCARD`) joined by newlines, and the blocks are joined by newlines.
 */
module Vcard {
  import opened Text
  import opened Seqs

  /** The six lines of one block. */
  function CardLines(fn: string, n: string, tel: string): (lines: seq<string>)
    ensures |lines| == 6 && lines[0] == "BEGIN:VCARD" && lines[5] == "END:VCARD"
  {
    ["BEGIN:VCARD", "VERSION:3.0", "FN:" + fn, "N:" + n, "TEL;TYPE=CELL:" + tel, "END:VCARD"]
  }

  /** Each card's lines joined into one block of text. */
  function Blocks(cards: seq<seq<string>>): (r: seq<string>)
    ensures |r| == |cards|
    ensures forall i :: 0 <= i < |cards| ==> r[i] == Join(cards[i], "\n")
  {
    seq(|cards|, i requires 0 <= i < |cards| => Join(cards[i], "\n"))
  }

  /** The contents of the file: the blocks joined by newlines. */
  function Render(cards: seq<seq<string>>): string {
    Join(Blocks(cards), "\n")
  }

  /** Reads a rendered file back: its lines, six at a time. */
  function ParseCards(text: string): seq<seq<string>> {
    if text == [] then [] else Chunk(Split(text, "\n"), 6)
  }

  predicate NoNewlines(cards: seq<seq<string>>) {
    forall k, j :: 0 <= k < |cards| && 0 <= j < |cards[k]| ==> '\n' !in cards[k][j]
  }

  lemma {:induction false} JoinBlocks(cards: seq<seq<string>>)
    requires forall k :: 0 <= k < |cards| ==> cards[k] != []
    ensures Join(Blocks(cards), "\n") == Join(Flatten(cards), "\n")
    decreases |cards|
  {
    if cards != [] {
      var rest := cards[1..];
      JoinBlocks(rest);
      var bs := Blocks(cards);
      assert bs[1..] == Blocks(rest);
      assert Flatten(cards) == cards[0] + Flatten(rest);
      if rest == [] {
        assert Flatten(cards) == cards[0];
      } else {
        assert Join(bs, "\n") == bs[0] + "\n" + Join(bs[1..], "\n");
        assert Flatten(rest) == rest[0] + Flatten(rest[1..]);
        JoinAppend(cards[0], Flatten(rest), "\n");
      }
    }
  }

  lemma {:induction false} FlattenNoNewlines(cards: seq<seq<string>>)
    requires NoNewlines(cards)
    ensures forall i :: 0 <= i < |Flatten(cards)| ==> '\n' !in Flatten(cards)[i]
    decreases |cards|
  {
    if cards != [] {
      FlattenNoNewlines(cards[1..]);
      forall i | 0 <= i < |Flatten(cards)| ensures '\n' !in Flatten(cards)[i] {
        if i >= |cards[0]| {
          assert Flatten(cards)[i] == Flatten(cards[1..])[i - |cards[0]|];
        }
      }
    }
  }

  /**
   * Reading a rendered file back gives exactly the cards written, in order,
   * when every card has six lines and no field holds a newline.
   */
  lemma RenderRoundTrip(cards: seq<seq<string>>)
    requires forall k :: 0 <= k < |cards| ==> |cards[k]| == 6
    requires NoNewlines(cards)
    ensures ParseCards(Render(cards)) == cards
  {
    if cards != [] {
      JoinBlocks(cards);
      FlattenNoNewlines(cards);
      FlattenLength(cards, 6);
      JoinSplitRoundTrip(Flatten(cards), '\n');
      ChunkFlatten(cards, 6);
      assert Render(cards) != [] by {
        assert Split(Render(cards), "\n") == Flatten(cards);
        assert |Flatten(cards)| >= 6;
      }
    }
  }
}
