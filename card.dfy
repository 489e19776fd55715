/** The product card (app/Components/ProductCard.jsx): the shortened title
    and the delete-confirmation / undo state machine. */
module Cards {
  import opened Products

  // ---------------------------------------------------------------------
  // Title truncation: split on ' ', keep three words, join with ' '.

  predicate NoSpace(w: string)
  {
    forall i :: 0 <= i < |w| ==> w[i] != ' '
  }

  /** `s.split(' ')`: the maximal space-free pieces between single spaces.
      There is always at least one piece (the empty string gives [""]). */
  function Split(s: string): (ws: seq<string>)
    ensures |ws| >= 1
    ensures forall i :: 0 <= i < |ws| ==> NoSpace(ws[i])
    decreases |s|
  {
    if s == [] then [""]
    else if s[0] == ' ' then [""] + Split(s[1..])
    else
      var rest := Split(s[1..]);
      [[s[0]] + rest[0]] + rest[1..]
  }

  /** The total length of the words. */
  function Width(ws: seq<string>): nat
  {
    if ws == [] then 0 else |ws[0]| + Width(ws[1..])
  }

  /** `ws.join(' ')`: the words in order with one space between neighbours,
      so the first word leads and the result holds one separator fewer than
      there are words. */
  function Join(ws: seq<string>): (r: string)
    ensures |ws| >= 1 ==> ws[0] <= r
    ensures |ws| >= 1 ==> |r| == Width(ws) + |ws| - 1
  {
    if |ws| == 0 then ""
    else if |ws| == 1 then ws[0]
    else ws[0] + " " + Join(ws[1..])
  }

  /** Joining the pieces of a split gives back the original string. */
  lemma {:induction false} JoinSplit(s: string)
    ensures Join(Split(s)) == s
    decreases |s|
  {
    if s == [] {
    } else if s[0] == ' ' {
      JoinSplit(s[1..]);
      assert Split(s) == [""] + Split(s[1..]);
      assert (Split(s))[1..] == Split(s[1..]);
    } else {
      var rest := Split(s[1..]);
      JoinSplit(s[1..]);
      if |rest| == 1 {
        assert Split(s) == [[s[0]] + rest[0]];
      } else {
        assert Split(s)[1..] == rest[1..];
        assert Join(rest) == rest[0] + " " + Join(rest[1..]);
        assert s == [s[0]] + s[1..];
      }
    }
  }

  /** Prefixing a space-free word to a string extends the first piece. */
  lemma {:induction false} SplitPrefixWord(w: string, t: string)
    requires NoSpace(w)
    ensures Split(w + t) == [w + Split(t)[0]] + Split(t)[1..]
    decreases |w|
  {
    var st := Split(t);
    if w != [] {
      SplitPrefixWord(w[1..], t);
      var rest := Split((w + t)[1..]);
      assert (w + t)[1..] == w[1..] + t;
      assert rest == [w[1..] + st[0]] + st[1..];
      assert (w + t)[0] == w[0] != ' ';
      assert Split(w + t) == [[w[0]] + rest[0]] + rest[1..];
      assert [w[0]] + (w[1..] + st[0]) == w + st[0];
    } else {
      assert w + t == t;
      assert w + st[0] == st[0];
      assert st == [st[0]] + st[1..];
    }
  }

  /** Splitting a join of space-free words gives back the words. */
  lemma {:induction false} SplitJoin(ws: seq<string>)
    requires |ws| >= 1
    requires forall i :: 0 <= i < |ws| ==> NoSpace(ws[i])
    ensures Split(Join(ws)) == ws
  {
    if |ws| == 1 {
      SplitPrefixWord(ws[0], "");
      assert Split("") == [""];
      assert ws[0] + "" == ws[0];
      assert Split(ws[0]) == [ws[0]];
    } else {
      SplitJoin(ws[1..]);
      var t := " " + Join(ws[1..]);
      assert ws[0] + " " + Join(ws[1..]) == ws[0] + t;
      SplitPrefixWord(ws[0], t);
      assert t[0] == ' ' && t[1..] == Join(ws[1..]);
      assert Split(t) == [""] + Split(t[1..]);
      assert Split(t)[0] == "" && Split(t)[1..] == ws[1..];
      assert ws[0] + "" == ws[0];
      assert Join(ws) == ws[0] + t;
      assert ws == [ws[0]] + ws[1..];
    }
  }

  /** The words kept: `slice(0, 3)`. */
  function FirstWords(ws: seq<string>): seq<string>
  {
    if |ws| <= 3 then ws else ws[..3]
  }

  /** A join splits at any word boundary: the first k words, a space, and
      the rest. */
  lemma {:induction false} JoinAt(ws: seq<string>, k: nat)
    requires 1 <= k < |ws|
    ensures Join(ws) == Join(ws[..k]) + " " + Join(ws[k..])
  {
    if k == 1 {
      assert Join(ws[..1]) == ws[0];
      assert ws[1..] == ws[k..];
    } else {
      JoinAt(ws[1..], k - 1);
      assert ws[..k][1..] == ws[1..][..k - 1];
      assert ws[1..][k - 1..] == ws[k..];
    }
  }

  /** truncatedTitle: the title is shown unchanged exactly when it has at
      most three words. */
  function Truncate(title: string): (r: string)
    ensures r == title <==> |Split(title)| <= 3
  {
    var ws := Split(title);
    var r := Join(FirstWords(ws)) + (if |ws| > 3 then "..." else "");
    JoinSplit(title);
    if |ws| > 3 then
      var head := Join(ws[..3]);
      JoinAt(ws, 3);
      assert title == head + (" " + Join(ws[3..]));
      assert title[|head|] == ' ' && r[|head|] == '.';
      r
    else
      r
  }

  /** A longer title is shown as its first three words (a prefix of the
      title, and itself three words) followed by "...". */
  lemma TruncateLong(title: string)
    requires |Split(title)| > 3
    ensures exists head :: Truncate(title) == head + "..." && head <= title
                           && Split(head) == Split(title)[..3]
  {
    var ws := Split(title);
    var head := Join(ws[..3]);
    JoinAt(ws, 3);
    JoinSplit(title);
    assert title == head + (" " + Join(ws[3..]));
    SplitJoin(ws[..3]);
    assert Truncate(title) == head + "...";
  }

  // ---------------------------------------------------------------------
  // The delete-confirmation / undo state machine.

  /** A call the card makes into its parent. */
  datatype Call = OnDelete(id: int) | OnRestore(shadow: Product)

  /** How the snackbar closes: its own close button or the 5000 ms auto-hide. */
  datatype CloseReason = UserClose | Timeout

  class ProductCard {
    const product: Product
    var openDialog: bool
    var snackOpen: bool
    /** The shadow copy kept for undo (deletedProduct). */
    var deletedProduct: Option<Product>

    /** The snackbar only shows after a delete, and the shadow is only ever
        this card's product. */
    ghost predicate Valid()
      reads this
    {
      && (deletedProduct.Some? ==> deletedProduct.value == product)
      && (snackOpen ==> deletedProduct.Some?)
    }

    constructor (p: Product)
      ensures Valid()
      ensures product == p && !openDialog && !snackOpen && deletedProduct == None
    {
      product := p;
      openDialog := false;
      snackOpen := false;
      deletedProduct := None;
    }

    /** handleDeleteClick: only opens the confirmation dialog. */
    method HandleDeleteClick() returns (calls: seq<Call>)
      requires Valid()
      modifies this`openDialog
      ensures Valid()
      ensures openDialog && calls == []
    {
      openDialog := true;
      calls := [];
    }

    /** handleConfirmDelete: closes the dialog, keeps the shadow, deletes
        this product once and opens the snackbar. */
    method HandleConfirmDelete() returns (calls: seq<Call>)
      requires Valid()
      modifies this`openDialog, this`deletedProduct, this`snackOpen
      ensures Valid()
      ensures !openDialog && snackOpen && deletedProduct == Some(product)
      ensures calls == [OnDelete(product.id)]
    {
      openDialog := false;
      deletedProduct := Some(product);
      calls := [OnDelete(product.id)];
      snackOpen := true;
    }

    /** The dialog's Cancel button and its own onClose: close it, delete nothing. */
    method CloseDialog() returns (calls: seq<Call>)
      requires Valid()
      modifies this`openDialog
      ensures Valid()
      ensures !openDialog && calls == []
    {
      openDialog := false;
      calls := [];
    }

    /** handleUndo: without a shadow nothing happens; with one, it is handed
        to onRestore and the snackbar closes. The shadow is kept. */
    method HandleUndo() returns (calls: seq<Call>)
      requires Valid()
      modifies this`snackOpen
      ensures Valid()
      ensures old(deletedProduct).None? ==> calls == [] && snackOpen == old(snackOpen)
      ensures old(deletedProduct).Some? ==>
        calls == [OnRestore(old(deletedProduct).value)] && !snackOpen
      ensures old(snackOpen) ==> calls == [OnRestore(product)]
    {
      if deletedProduct.Some? {
        calls := [OnRestore(deletedProduct.value)];
        snackOpen := false;
      } else {
        calls := [];
      }
    }

    /** The snackbar's and the alert's onClose: hide it, keep the shadow. */
    method CloseSnackbar(reason: CloseReason) returns (calls: seq<Call>)
      requires Valid()
      modifies this`snackOpen
      ensures Valid()
      ensures !snackOpen && calls == []
    {
      snackOpen := false;
      calls := [];
    }
  }
}
