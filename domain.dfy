/** The closed string-union types of the application (boards, grades, subjects, HSC
    categories, languages, question types and difficulty levels), each with the exact
    string the TypeScript code prints for it. */
module Domain {

  datatype Language = English | Urdu {
    function Name(): string {
      match this
      case English => "english"
      case Urdu => "urdu"
    }
  }

  datatype Board = Punjab | Sindh | KPK | Balochistan | FBISE | AKUEB {
    function Name(): string {
      match this
      case Punjab => "Punjab"
      case Sindh => "Sindh"
      case KPK => "KPK"
      case Balochistan => "Balochistan"
      case FBISE => "FBISE"
      case AKUEB => "AKU-EB"
    }
  }

  datatype Grade = Ninth | Tenth | Eleventh | Twelfth {
    function Name(): string {
      match this
      case Ninth => "9th"
      case Tenth => "10th"
      case Eleventh => "11th"
      case Twelfth => "12th"
    }
  }

  datatype Subject =
    | Physics | Chemistry | Biology | Mathematics | ComputerScience | English | Urdu
    | Islamiat | PakistanStudies | Economics | Statistics | Psychology | Sociology
    | Philosophy | FineArts | HomeEconomics | Geography | History | Civics | Arabic
    | Persian | French | German
  {
    function Name(): string {
      match this
      case Physics => "Physics"
      case Chemistry => "Chemistry"
      case Biology => "Biology"
      case Mathematics => "Mathematics"
      case ComputerScience => "Computer Science"
      case English => "English"
      case Urdu => "Urdu"
      case Islamiat => "Islamiat"
      case PakistanStudies => "Pakistan Studies"
      case Economics => "Economics"
      case Statistics => "Statistics"
      case Psychology => "Psychology"
      case Sociology => "Sociology"
      case Philosophy => "Philosophy"
      case FineArts => "Fine Arts"
      case HomeEconomics => "Home Economics"
      case Geography => "Geography"
      case History => "History"
      case Civics => "Civics"
      case Arabic => "Arabic"
      case Persian => "Persian"
      case French => "French"
      case German => "German"
    }
  }

  /** The HSC (11th and 12th grade) subject groups. */
  datatype HscCategory =
    | PreEngineering | PreMedical | ComputerScience | Commerce | Arts | GeneralScience
    | HomeEconomics

  datatype QuestionType = MCQ | ShortAnswer | LongAnswer | Numerical {
    function Name(): string {
      match this
      case MCQ => "MCQ"
      case ShortAnswer => "Short Answer"
      case LongAnswer => "Long Answer"
      case Numerical => "Numerical"
    }
  }

  /** Difficulty of a chapter or question ('easy' | 'medium' | 'hard'), and of a requested
      quiz, which may also be 'mixed'. */
  datatype Difficulty = Easy | Medium | Hard | Mixed {
    function Name(): string {
      match this
      case Easy => "easy"
      case Medium => "medium"
      case Hard => "hard"
      case Mixed => "mixed"
    }
  }
}
