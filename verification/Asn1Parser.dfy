/**
 The parser as the program runs it: one position that moves along the tokens. Every method
 is tied to the parsing function of the same name, outcome and final position alike.
 */
module Asn1Parser {
  import opened Wrappers
  import opened Asn1Types
  import opened Asn1Parse

  /** A method that returned `r` with the position at `i` did what the function `p` says. */
  predicate Agrees<T(==)>(r: Result<T, Fault>, p: Parsed<T>, i: nat) {
    match r case Success(v) => p == Success((v, i)) case Failure(f) => p == Failure(f)
  }

  class Parser {
    const t: Tokens
    var i: nat

    constructor (toks: Tokens)
      ensures t == toks && i == 0
    {
      t, i := toks, 0;
    }

    method SkipOver(open: Token, close: Token) returns (r: Result<(), Fault>)
      requires i <= |t|
      modifies this
      ensures i <= |t|
      ensures SkipBalanced(t, old(i), open, close, 0) == if r.Success? then Success(i) else Failure(r.error)
    {
      var depth := 0;
      while i < |t|
        invariant i <= |t|
        invariant SkipBalanced(t, i, open, close, depth) == SkipBalanced(t, old(i), open, close, 0)
      {
        var tok := t[i];
        i := i + 1;
        if tok == open {
          depth := depth + 1;
        } else if tok == close {
          depth := depth - 1;
          if depth == 0 {
            return Success(());
          }
        }
      }
      return Failure(Syntax);
    }

    method SkipToEnd() returns (r: Result<(), Fault>)
      requires i <= |t|
      modifies this
      ensures i <= |t|
      ensures SkipToClose(t, old(i), 0) == if r.Success? then Success(i) else Failure(r.error)
    {
      var depth := 0;
      while i < |t|
        invariant i <= |t| && depth >= 0
        invariant SkipToClose(t, i, depth) == SkipToClose(t, old(i), 0)
      {
        var tok := t[i];
        if tok == LParen || tok == LBrace {
          depth := depth + 1;
        } else if tok == RParen || tok == RBrace {
          if depth == 0 {
            return Success(());
          }
          depth := depth - 1;
        }
        i := i + 1;
      }
      return Failure(Syntax);
    }

    method Accept(tok: Token) returns (r: Result<(), Fault>)
      requires i <= |t|
      modifies this
      ensures i <= |t|
      ensures if Next(t, old(i), tok) then r == Success(()) && i == old(i) + 1 else r == Failure(Syntax)
    {
      if i < |t| && t[i] == tok {
        i := i + 1;
        return Success(());
      }
      return Failure(Syntax);
    }

    method ReadValue() returns (r: Result<Option<int>, Fault>)
      requires i <= |t|
      modifies this
      ensures i <= |t| && Agrees(r, Value(t, old(i)), i)
    {
      if i == |t| {
        return Failure(Syntax);
      }
      var tok := t[i];
      i := i + 1;
      if tok == MIN || tok == MAX {
        return Success(None);
      }
      var n := IntOf(Spelling(tok));
      return if n.Some? then Success(n) else Failure(Syntax);
    }

    /** The alphabet after FROM. */
    method ReadAlphabet() returns (r: Result<Constraint, Fault>)
      requires i <= |t|
      modifies this
      ensures i <= |t| && Agrees(r, Alphabet(t, old(i)), i)
    {
      var _ :- Accept(LParen);
      if i == |t| {
        return Failure(Syntax);
      }
      var s := t[i];
      i := i + 1;
      var _ :- Accept(RParen);
      return Success(Constraint(None, None, Some(if s.Quoted? then s.text else Spelling(s))));
    }

    /** A value, or two with `..` between them. */
    method ReadRange() returns (r: Result<Constraint, Fault>)
      requires i <= |t|
      modifies this
      ensures i <= |t| && Agrees(r, ValueRange(t, old(i)), i)
    {
      hide Value;
      var lb :- ReadValue();
      var ub := lb;
      if i < |t| && t[i] == DotDot {
        i := i + 1;
        ub :- ReadValue();
      }
      return Success(Constraint(Some(Bounds(lb, ub, false)), None, None));
    }

    method ReadElement() returns (r: Result<Constraint, Fault>)
      requires i <= |t|
      modifies this
      ensures i <= |t| && Agrees(r, Element(t, old(i)), i)
      decreases |t| - i, 1
    {
      hide Alphabet, ValueRange, Parenthesised, SkipToClose;
      if i == |t| {
        return Failure(Syntax);
      }
      var tok := t[i];
      if tok == SIZE {
        i := i + 1;
        var c :- ReadConstraint();
        return Success(Constraint(None, Some(c.value), None));
      }
      if tok == FROM {
        i := i + 1;
        r := ReadAlphabet();
        return;
      }
      if tok == LParen {
        r := ReadConstraint();
        return;
      }
      if IsUpper(tok) && tok != MIN && tok != MAX {
        i := i + 1;
        var _ :- SkipToEnd();
        return Success(NOTHING);
      }
      r := ReadRange();
    }

    /** The elements of a constraint, joined by `^`. */
    method ReadElements() returns (r: Result<Constraint, Fault>)
      requires i <= |t|
      modifies this
      ensures i <= |t| && Agrees(r, Elements(t, old(i), NOTHING), i) && (r.Success? ==> old(i) <= i)
      decreases |t| - i, 2
    {
      hide Element;
      var result := NOTHING;
      var more := true;
      while more
        invariant old(i) <= i <= |t|
        invariant if more then Elements(t, i, result) == Elements(t, old(i), NOTHING)
                  else Elements(t, old(i), NOTHING) == Success((result, i))
        decreases |t| - i, if more then 1 else 0
      {
        var c :- ReadElement();
        result := Merge(result, c);
        more := i < |t| && t[i] == Caret;
        if more {
          i := i + 1;
        }
      }
      return Success(result);
    }

    method ReadConstraint() returns (r: Result<Constraint, Fault>)
      requires i <= |t|
      modifies this
      ensures i <= |t| && Agrees(r, Parenthesised(t, old(i)), i)
      decreases |t| - i, 0
    {
      hide Element, Elements;
      var _ :- Accept(LParen);
      var result :- ReadElements();
      if i < |t| && t[i] == Comma {
        i := i + 1;
        var _ :- Accept(Ellipsis);
        result := Loosen(result);
      }
      if i < |t| && t[i] == Bar {
        return Failure(Syntax);
      }
      var _ :- Accept(RParen);
      return Success(result);
    }

    method ReadEnum() returns (r: Result<Type, Fault>)
      requires i <= |t|
      modifies this
      ensures i <= |t| && Agrees(r, EnumItems(t, old(i), [], None), i)
    {
      var root: seq<string>, ext: seq<string>, inExt := [], [], false;
      while i < |t|
        invariant i <= |t| && (!inExt ==> ext == [])
        invariant EnumItems(t, i, root, if inExt then Some(ext) else None) == EnumItems(t, old(i), [], None)
        decreases |t| - i
      {
        var tok := t[i];
        i := i + 1;
        if tok == RBrace {
          return Success(Enum(root, if inExt then Some(ext) else None));
        }
        if tok == Comma {
          continue;
        }
        if tok == Ellipsis {
          inExt := true;
          continue;
        }
        if i < |t| && t[i] == LParen {
          var _ :- SkipOver(LParen, RParen);
        }
        if inExt {
          ext := ext + [Spelling(tok)];
        } else {
          root := root + [Spelling(tok)];
        }
      }
      return Failure(Syntax);
    }

    method ReadComponent() returns (r: Result<Field, Fault>)
      requires i < |t|
      modifies this
      ensures i <= |t| && Agrees(r, OneComponent(t, old(i)), i)
      decreases |t| - i, 0
    {
      var name := Spelling(t[i]);
      i := i + 1;
      var ty :- ReadType();
      if i < |t| && t[i] == OPTIONAL {
        i := i + 1;
        return Success(Field(name, ty, true));
      }
      if i < |t| && t[i] == DEFAULT {
        return Failure(Syntax);
      }
      return Success(Field(name, ty, false));
    }

    method ReadComponents() returns (r: Result<(seq<Field>, Extension), Fault>)
      requires i <= |t|
      modifies this
      ensures i <= |t| && Agrees(r, Components(t, old(i), [], Closed), i)
      decreases |t| - i, 1
    {
      var root: seq<Field>, ext: seq<Field>, inExt := [], [], false;
      while i < |t|
        invariant old(i) <= i <= |t| && (!inExt ==> ext == [])
        invariant Components(t, i, root, if inExt then Open(ext) else Closed) == Components(t, old(i), [], Closed)
        decreases |t| - i
      {
        var tok := t[i];
        if tok == RBrace {
          i := i + 1;
          return Success((root, if inExt then Open(ext) else Closed));
        }
        if tok == Comma {
          i := i + 1;
          continue;
        }
        if tok == Ellipsis {
          i := i + 1;
          if inExt {
            return Failure(Syntax);
          }
          inExt := true;
          continue;
        }
        if tok == LVersion {
          return Failure(Syntax);
        }
        var f :- ReadComponent();
        if inExt {
          ext := ext + [f];
        } else {
          root := root + [f];
        }
      }
      return Failure(Syntax);
    }

    method ReadListed(choice: bool) returns (r: Result<Type, Fault>)
      requires i <= |t|
      modifies this
      ensures i <= |t| && Agrees(r, Asn1Parse.Listed(t, old(i), choice), i)
      decreases |t| - i, 2
    {
      var _ :- Accept(LBrace);
      var c :- ReadComponents();
      return Success(if choice then Choice(c.0, c.1) else Seq(c.0, c.1));
    }

    method ReadSize() returns (r: Result<Option<Bounds>, Fault>)
      requires i <= |t|
      modifies this
      ensures i <= |t| && Agrees(r, OfSize(t, old(i)), i)
    {
      if i < |t| && t[i] == LParen {
        var c :- ReadConstraint();
        return Success(if c.size.Some? then c.size.value else None);
      } else if i < |t| && t[i] == SIZE {
        i := i + 1;
        var c :- ReadConstraint();
        return Success(c.value);
      }
      return Success(None);
    }

    method ReadListOf() returns (r: Result<Type, Fault>)
      requires i <= |t|
      modifies this
      ensures i <= |t| && Agrees(r, ListOf(t, old(i)), i)
      decreases |t| - i, 3
    {
      var size :- ReadSize();
      var _ :- Accept(OF);
      if i + 1 < |t| && IsLower(t[i]) && IsUpper(t[i + 1]) && t[i + 1] != OF {
        i := i + 1;
      }
      var item :- ReadType();
      return Success(SeqOf(if size.Some? then size else Some(Bounds(Some(0), None, false)), item));
    }

    method ReadSimple() returns (r: Result<Type, Fault>)
      requires i < |t|
      modifies this
      ensures i <= |t| && Agrees(r, SimpleType(t, old(i)), i)
    {
      var tok := t[i];
      i := i + 1;
      if tok == BOOLEAN {
        return Success(Bool);
      } else if tok == NULL {
        return Success(Null);
      } else if tok.CharString? {
        return Success(Chars(tok.kind, None, None));
      } else if tok == INTEGER {
        if i < |t| && t[i] == LBrace {
          var _ :- SkipOver(LBrace, RBrace);
        }
        return Success(Int(None));
      } else if tok == OBJECT {
        var _ :- Accept(IDENTIFIER);
        return Success(Oid);
      } else if tok == OCTET {
        var _ :- Accept(STRING);
        return Success(Octets(None));
      } else if tok == BIT {
        var _ :- Accept(STRING);
        if i < |t| && t[i] == LBrace {
          var _ :- SkipOver(LBrace, RBrace);
        }
        return Success(Bits(None));
      } else if tok == TYPE_IDENTIFIER {
        var _ :- Accept(Dot);
        var _ :- Accept(Ampersand);
        if i == |t| {
          return Failure(Syntax);
        }
        i := i + 1;
        return Success(Opaque("TYPE-IDENTIFIER.&Type"));
      } else if i < |t| && t[i] == LBrace {
        var _ :- SkipOver(LBrace, RBrace);
        return Success(Opaque("parameterized type " + Spelling(tok) + "{}"));
      }
      return Success(Ref(Spelling(tok), []));
    }

    method ReadBase() returns (r: Result<Type, Fault>)
      requires i <= |t|
      modifies this
      ensures i <= |t| && Agrees(r, BaseType(t, old(i)), i)
      decreases |t| - i, 2
    {
      if i == |t| {
        return Failure(Syntax);
      }
      var tok := t[i];
      if tok == SEQUENCE || tok == SET {
        i := i + 1;
        if i < |t| && t[i] == LBrace {
          r := ReadListed(false);
        } else {
          r := ReadListOf();
        }
      } else if tok == CHOICE {
        i := i + 1;
        r := ReadListed(true);
      } else if tok == ENUMERATED {
        i := i + 1;
        var _ :- Accept(LBrace);
        r := ReadEnum();
      } else {
        r := ReadSimple();
      }
    }

    method ReadType() returns (r: Result<Type, Fault>)
      requires i <= |t|
      modifies this
      ensures i <= |t| && Agrees(r, ParseType(t, old(i)), i)
      decreases |t| - i, 4
    {
      var ty :- ReadBase();
      while i < |t| && t[i] == LParen
        invariant old(i) < i <= |t|
        invariant Narrowed(ty, t, i) == ParseType(t, old(i))
      {
        var c :- ReadConstraint();
        ty :- Apply(ty, c);
      }
      return Success(ty);
    }
  }
}
