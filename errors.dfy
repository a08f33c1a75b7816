/** The exceptions the normaliser raises, by kind. */
module Errors {

  /** Which price field a minimum-price check rejected. */
  datatype PriceField = SaleField | BaseField | FinishedSaleField | FinishedField

  datatype Error =
    // Python's own exceptions, raised by the library calls the code makes
    | ValueError          // `int()` of text that is no integer; unpacking the wrong number of parts
    | TypeError           // an operation on a value of the wrong type (`None`, an `int` where text is needed)
    | IndexError          // `[0]` of an empty list of regex matches
    | AttributeError      // a string method called on a value that is no string
    | InvalidOperation    // `Decimal()` of text that is no number
    // the record's own `raise Exception(...)`
    | UnknownTypeName     // text that names no known type (murinoclub.py:148)
    | WrongPriceValue     // a price outside the plausible range (murinoclub.py:206)
    | TypeInNumber        // a number naming another type (murinoclub.py:249)
    | NoRoomDigits        // room text without digits (murinoclub.py:330)
    | WrongInSale         // an availability other than 0, 1 or None (murinoclub.py:417)
    | WrongFinished       // a finish flag outside its values (murinoclub.py:422)
    | WrongFurniture      // a furniture flag outside its values (murinoclub.py:488)
    | LivingAreaAfterRoomAreas   // living area given after room areas were summed (murinoclub.py:439)
    | RoomAreaAfterLivingArea    // room area summed after a living area was given (murinoclub.py:649)
    // the record checks of final_check (murinoclub.py:702-752)
    | TooManyRoomsForArea | TooManyRooms | FloorTooHigh
    | FlatAreaTooSmall | FlatAreaTooBig | LivingAreaTooBig | ParkingAreaTooBig | AreaTooSmall
    | WrongSalePrice | WrongFinishedSalePrice | DiscountTooBig
    | PriceTooSmall(field: PriceField)
    | WrongObjType        // a type outside the canonical ones at the end of final_check (murinoclub.py:671)
    // the helpers and the mapper
    | DuplicateKey(key: string)   // a key repeated in post data (murinoclub.py:808)
    | LengthMismatch              // key and value lists of different length (murinoclub.py:1031)
}
